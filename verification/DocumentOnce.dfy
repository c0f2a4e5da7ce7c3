/** How often an event about one directory or one file commits, over every run: its deletion by
    marks and by plain deletes, its upload, and a file's deletion, each once at most for every
    time it was created or begun; and once in all where its id is never used again. */
module DocumentOnce {
  import opened Forest
  import opened Events
  import opened Documents
  import opened DocumentScope
  import opened DocumentReplay
  import opened DocumentRuns

  predicate CreatesDir(e: Event, d: Id) { e.DirectoryCreated? && e.dir.id == d }
  predicate DeletesDir(e: Event, d: Id) { e.DirectoryDeleted? && e.dirId == d }
  predicate UploadsFile(e: Event, f: FileId) { e.FileUploaded? && e.file.id == f }
  predicate DeletesFile(e: Event, f: FileId) { e.FileDeleted? && e.fileId == f }

  /** How many of the events count. */
  function Count(log: seq<Event>, counts: Event -> bool): nat {
    if log == [] then 0 else Count(log[..|log| - 1], counts) + if counts(log[|log| - 1]) then 1 else 0
  }

  lemma CountNext(log: seq<Event>, e: Event, counts: Event -> bool)
    ensures Count(log + [e], counts) == Count(log, counts) + if counts(e) then 1 else 0
  {
    assert (log + [e])[..|log|] == log;
  }

  /** What the command inserts takes an id never used before. */
  ghost predicate Distinct(s: State, c: Command) {
    && (Inserted(s.rows, c).Some? ==> Inserted(s.rows, c).value !in s.used)
    && (c.BeginUpload? && Run(s.rows, c).Committed? ==> c.file !in s.begun)
  }

  ghost predicate DistinctRun(s: State, commands: seq<Command>)
    decreases |commands|
  {
    commands != [] ==> Distinct(s, commands[0]) && DistinctRun(Next(s, commands[0]), commands[1..])
  }

  // ---- Which commands delete a directory ----

  ghost predicate Deletes(s: State, c: Command, d: Id) {
    Enabled(s, c) && Run(s.rows, c).Committed? && Run(s.rows, c).event.Some? && DeletesDir(Run(s.rows, c).event.value, d)
  }

  /** The directory's deletions that marks commit, of its branch or any other. */
  ghost function ByMarks(s: State, commands: seq<Command>, d: Id): nat
    decreases |commands|
  {
    if commands == [] then 0
    else (if commands[0].MarkBranch? && Deletes(s, commands[0], d) then 1 else 0) + ByMarks(Next(s, commands[0]), commands[1..], d)
  }

  /** The directory's deletions that plain deletes commit. */
  ghost function ByDeletes(s: State, commands: seq<Command>, d: Id): nat
    decreases |commands|
  {
    if commands == [] then 0
    else (if commands[0].DeleteDirectory? && Deletes(s, commands[0], d) then 1 else 0) + ByDeletes(Next(s, commands[0]), commands[1..], d)
  }

  /** Whether blobfs lets no plain delete remove a directory that is deleting already. */
  predicate Stern(commands: seq<Command>) {
    forall i :: 0 <= i < |commands| ==> !(commands[i].DeleteDirectory? && commands[i].lenient)
  }

  /** After marks of marks' deletions and plain of plain deletes'. */
  ghost predicate DirOnce(s: State, d: Id, marks: nat, plain: nat, stern: bool) {
    var created, deleted := Count(s.log, e => CreatesDir(e, d)), Count(s.log, e => DeletesDir(e, d));
    && deleted == marks + plain && marks <= created && plain <= created && (stern ==> deleted <= created)
    && (d in s.rows.dirs ==> plain < created)
    && (Stands(s.rows, d) ==> marks < created && (stern ==> deleted < created))
  }

  /** After so many begun writes. */
  ghost predicate FileOnce(s: State, f: FileId, begun: nat) {
    var uploaded, deleted := Count(s.log, e => UploadsFile(e, f)), Count(s.log, e => DeletesFile(e, f));
    && uploaded <= begun && deleted <= begun
    && (f in s.rows.files && s.rows.files[f].status != Doomed ==> deleted < begun)
    && (f in s.rows.files && s.rows.files[f].status == Pending ==> uploaded < begun)
  }

  /** A mark's deletion is of a directory that stood before and does not after, a plain
      delete's of one whose row it removes, and nothing else commits one. */
  lemma DeletionTakes(h: Hierarchy, c: Command, d: Id)
    requires Run(h, c).Committed? && Run(h, c).event.Some? && DeletesDir(Run(h, c).event.value, d)
    ensures || (c.MarkBranch? && Stands(h, d) && !Stands(Run(h, c).after, d))
            || (c.DeleteDirectory? && d in h.dirs && d !in Run(h, c).after.dirs && (Stands(h, d) || c.lenient))
  {
    EventShape(h, c);
    hide Scope, FileScope, WithinRoot, Occupied, DirectoryNamed, FileNamed, Mark;
  }

  lemma NextKeepsDirOnce(s: State, c: Command, d: Id, marks: nat, plain: nat, stern: bool)
    requires Sound(s.rows) && DirOnce(s, d, marks, plain, stern) && (stern ==> !(c.DeleteDirectory? && c.lenient))
    ensures DirOnce(Next(s, c), d, marks + (if c.MarkBranch? && Deletes(s, c, d) then 1 else 0),
                    plain + (if c.DeleteDirectory? && Deletes(s, c, d) then 1 else 0), stern)
  {
    hide Sound, Run, Count, Inserted, Mintable;
    if Enabled(s, c) && Run(s.rows, c).Committed? {
      var h', e := Run(s.rows, c).after, Run(s.rows, c).event;
      if e.Some? {
        CountNext(s.log, e.value, x => CreatesDir(x, d));
        CountNext(s.log, e.value, x => DeletesDir(x, d));
        CreationInserts(s.rows, c, d);
        if DeletesDir(e.value, d) {
          DeletionTakes(s.rows, c, d);
        }
      } else {
        NothingInserted(s.rows, c);
      }
      if d in h'.dirs {
        RowsBefore(s.rows, c, d);
      }
      if Stands(h', d) && Inserted(s.rows, c) != Some(d) {
        NothingRises(s.rows, c, d);
      }
    }
  }

  lemma NothingInserted(h: Hierarchy, c: Command)
    requires Run(h, c).Committed? && Run(h, c).event.None?
    ensures Inserted(h, c) == None
  {
    hide Run;
  }

  /** What a transaction does to one file, and the event it raises about it. */
  lemma FileSteps(h: Hierarchy, c: Command, f: FileId)
    requires Sound(h) && Run(h, c).Committed?
    ensures var h', e := Run(h, c).after, Run(h, c).event;
            && (e.Some? && UploadsFile(e.value, f) ==> f in h.files && h.files[f].status == Pending && Served(h', f))
            && (e.Some? && DeletesFile(e.value, f) ==> f in h.files && h.files[f].status != Doomed && f in h'.files && h'.files[f].status == Doomed)
            && (f in h'.files && f in h.files ==>
                  (h'.files[f].status == h.files[f].status || h'.files[f].status == Doomed || (e.Some? && UploadsFile(e.value, f))))
            && (f in h'.files && f !in h.files ==> c.BeginUpload? && c.file == f && h'.files[f].status == Pending)
  {
    hide IsForest, Bound, Unique, Housed, Scope, FileScope, WithinRoot, RunEnsureRoot, Occupied, DirectoryNamed,
         FileNamed, Within;
    if c.EnsureRoot? {
      RootLeavesFiles(h, c.org, c.stands, c.id);
      RootEventIsCreation(h, c.org, c.stands, c.id);
    }
  }

  lemma RootEventIsCreation(h: Hierarchy, org: Id, stands: bool, id: Id)
    ensures var r := RunEnsureRoot(h, org, stands, id); r.Committed? && r.event.Some? ==> r.event.value.DirectoryCreated?
  {
  }

  /** Whether the command begins the file. */
  ghost predicate BeginsFile(s: State, c: Command, f: FileId) {
    Enabled(s, c) && c.BeginUpload? && c.file == f && Run(s.rows, c).Committed?
  }

  /** How often a run begins the file. */
  ghost function Beginnings(s: State, commands: seq<Command>, f: FileId): nat
    decreases |commands|
  {
    if commands == [] then 0
    else (if BeginsFile(s, commands[0], f) then 1 else 0) + Beginnings(Next(s, commands[0]), commands[1..], f)
  }

  lemma NextKeepsFileOnce(s: State, c: Command, f: FileId, begun: nat)
    requires Sound(s.rows) && FileOnce(s, f, begun)
    ensures FileOnce(Next(s, c), f, begun + if BeginsFile(s, c, f) then 1 else 0)
  {
    hide Sound, Run, Count, Mintable;
    if Enabled(s, c) && Run(s.rows, c).Committed? {
      var e := Run(s.rows, c).event;
      FileSteps(s.rows, c, f);
      if e.Some? {
        CountNext(s.log, e.value, x => UploadsFile(x, f));
        CountNext(s.log, e.value, x => DeletesFile(x, f));
      }
    }
  }

  lemma {:induction false} RunsKeepDirOnce(s: State, commands: seq<Command>, d: Id, marks: nat, plain: nat, stern: bool)
    requires Sound(s.rows) && DirOnce(s, d, marks, plain, stern) && (stern ==> Stern(commands))
    ensures DirOnce(Exec(s, commands), d, marks + ByMarks(s, commands, d), plain + ByDeletes(s, commands, d), stern)
    decreases |commands|
  {
    hide Sound, DirOnce, Next, Deletes;
    if commands != [] {
      var c := commands[0];
      NextKeepsDirOnce(s, c, d, marks, plain, stern);
      NextKeepsSound(s, c);
      RunsKeepDirOnce(Next(s, c), commands[1..], d, marks + (if c.MarkBranch? && Deletes(s, c, d) then 1 else 0),
                      plain + (if c.DeleteDirectory? && Deletes(s, c, d) then 1 else 0), stern);
    }
  }

  lemma {:induction false} RunsKeepFileOnce(s: State, commands: seq<Command>, f: FileId, begun: nat)
    requires Sound(s.rows) && FileOnce(s, f, begun)
    ensures FileOnce(Exec(s, commands), f, begun + Beginnings(s, commands, f))
    decreases |commands|
  {
    hide Sound, FileOnce, Next, BeginsFile;
    if commands != [] {
      NextKeepsFileOnce(s, commands[0], f, begun);
      NextKeepsSound(s, commands[0]);
      RunsKeepFileOnce(Next(s, commands[0]), commands[1..], f, begun + if BeginsFile(s, commands[0], f) then 1 else 0);
    }
  }

  // ---- Ids never used again ----

  lemma {:induction false} CreatedOnce(s: State, commands: seq<Command>, d: Id)
    requires Sound(s.rows) && DistinctRun(s, commands)
    requires Count(s.log, e => CreatesDir(e, d)) <= if d in s.used then 1 else 0
    ensures Count(Exec(s, commands).log, e => CreatesDir(e, d)) <= 1
    decreases |commands|
  {
    hide Sound, Run, Count, Inserted, Mintable;
    if commands != [] {
      var c := commands[0];
      if Enabled(s, c) && Run(s.rows, c).Committed? && Run(s.rows, c).event.Some? {
        CountNext(s.log, Run(s.rows, c).event.value, x => CreatesDir(x, d));
        CreationInserts(s.rows, c, d);
      }
      NextKeepsSound(s, c);
      CreatedOnce(Next(s, c), commands[1..], d);
    }
  }

  lemma {:induction false} BegunOnce(s: State, commands: seq<Command>, f: FileId)
    requires DistinctRun(s, commands)
    ensures Beginnings(s, commands, f) <= if f in s.begun then 0 else 1
    decreases |commands|
  {
    hide Run, Inserted, Mintable;
    if commands != [] {
      BegunOnce(Next(s, commands[0]), commands[1..], f);
    }
  }

  // ---- Over every run ----

  lemma InitialOnce(d: Id, f: FileId, stern: bool)
    ensures Sound(INITIAL.rows) && DirOnce(INITIAL, d, 0, 0, stern) && FileOnce(INITIAL, f, 0)
    ensures Count(INITIAL.log, e => CreatesDir(e, d)) == 0
  {
    assert ParentsIn(EMPTY) == map[];
  }

  /** Over every run, marks commit a directory's deletion once at most for each time it was
      created, and so do plain deletes, neither before its creation; both kinds together do too
      where blobfs lets no plain delete remove a directory deleting already; and a directory
      whose id is not used again is created once at most. */
  lemma AtMostOnce(commands: seq<Command>, d: Id)
    ensures var log := Exec(INITIAL, commands).log;
            var created, deleted := Count(log, e => CreatesDir(e, d)), Count(log, e => DeletesDir(e, d));
            var byMarks, byDeletes := ByMarks(INITIAL, commands, d), ByDeletes(INITIAL, commands, d);
            && deleted == byMarks + byDeletes && byMarks <= created && byDeletes <= created
            && (Stern(commands) ==> deleted <= created)
            && (DistinctRun(INITIAL, commands) ==> created <= 1)
  {
    InitialOnce(d, Minted(0), Stern(commands));
    RunsKeepDirOnce(INITIAL, commands, d, 0, 0, Stern(commands));
    hide Sound, DistinctRun, Exec, Stern, Count, Stands, ByMarks, ByDeletes;
    if DistinctRun(INITIAL, commands) {
      CreatedOnce(INITIAL, commands, d);
    }
  }

  /** And a file's upload and its deletion commit once at most for each time its write was begun:
      no retry, no mark, no abandon, and no sweep commits a second. */
  lemma FilesAtMostOnce(commands: seq<Command>, f: FileId)
    ensures var log := Exec(INITIAL, commands).log;
            var begun := Beginnings(INITIAL, commands, f);
            && Count(log, e => UploadsFile(e, f)) <= begun && Count(log, e => DeletesFile(e, f)) <= begun
            && (DistinctRun(INITIAL, commands) ==> begun <= 1)
  {
    InitialOnce(TOP, f, true);
    RunsKeepFileOnce(INITIAL, commands, f, 0);
    hide Sound, DistinctRun, Exec, Count, Beginnings;
    if DistinctRun(INITIAL, commands) {
      BegunOnce(INITIAL, commands, f);
    }
  }
}
