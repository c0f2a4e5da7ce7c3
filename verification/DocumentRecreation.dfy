/** A directory created again under an id it had before, as a seed's rerun does after a client
    deleted its branch: the entries the branch's mark left in a consumer's copy come back to
    life there exactly when any of them lay under that id. */
module DocumentRecreation {
  import opened Forest
  import opened Events
  import opened Documents
  import opened DocumentScope
  import opened DocumentReplay
  import opened DocumentRuns

  /** The same directories and available files, in the rows and in the copy. */
  ghost predicate SameViews(h: Hierarchy, copy: Copy) {
    && (forall d :: Visible(h, d) <==> Kept(copy, d))
    && (forall f :: FileVisible(h, f) <==> FileKept(copy, f))
  }

  lemma {:induction false} ReachedAfterInsert(h: Hierarchy, d: Id, row: Directory, x: Id, n: nat)
    requires d !in h.dirs && Reached(h, x, n)
    ensures Reached(PutDir(h, d, row), x, n)
    decreases n
  {
    if h.dirs[x].parent != TOP {
      ReachedAfterInsert(h, d, row, h.dirs[x].parent, n - 1);
    }
  }

  /** A new row's parent is the top, or in view itself. */
  ghost predicate InView(h: Hierarchy, row: Directory) {
    row.status == Active && (row.parent == TOP || Visible(h, row.parent))
  }

  lemma InsertedIsVisible(h: Hierarchy, d: Id, row: Directory)
    requires d !in h.dirs && InView(h, row)
    ensures Visible(PutDir(h, d, row), d)
  {
    if row.parent == TOP {
      assert Reached(PutDir(h, d, row), d, 0);
    } else {
      var n: nat :| Reached(h, row.parent, n);
      ReachedAfterInsert(h, d, row, row.parent, n);
      assert Reached(PutDir(h, d, row), d, n + 1);
    }
  }

  lemma LinkedBelow(copy: Copy, d: Id, x: Id)
    requires Kept(copy, d) && x in copy.dirs && copy.dirs[x].parent == Some(d)
    ensures Kept(copy, x)
  {
    var n: nat :| Linked(copy, d, n);
    assert Linked(copy, x, n + 1);
  }

  lemma OrphanDirLeaks(h: Hierarchy, copy: Copy, org: Id, d: Id, row: Directory, x: Id)
    requires Sound(h) && PicturesDirs(h, copy) && d !in h.dirs && d != TOP && InView(h, row)
    requires x in copy.dirs && x != d && copy.dirs[x].parent == Some(d)
    ensures !SameViews(PutDir(h, d, row), copy.(dirs := copy.dirs[d := Picture(org, d, row)]))
  {
    hide Bound, Unique, Housed, Visible, Kept;
    var h', copy' := PutDir(h, d, row), copy.(dirs := copy.dirs[d := Picture(org, d, row)]);
    if SameViews(h', copy') {
      InsertedIsVisible(h, d, row);
      LinkedBelow(copy', d, x);
      VisibleStands(h');
      ParentStands(h, x);
      assert false;
    }
  }

  lemma FileIsNot(h: Hierarchy, f: FileId, d: Id)
    requires Housed(h) && d !in h.dirs
    ensures f in h.files ==> h.files[f].directory != d
  {
  }

  lemma OrphanFileLeaks(h: Hierarchy, copy: Copy, org: Id, d: Id, row: Directory, f: FileId)
    requires Sound(h) && PicturesFiles(h, copy) && d !in h.dirs && InView(h, row)
    requires f in copy.files && copy.files[f].stored.Some? && copy.files[f].directory == d
    ensures !SameViews(PutDir(h, d, row), copy.(dirs := copy.dirs[d := Picture(org, d, row)]))
  {
    hide IsForest, Bound, Unique, Visible, Kept;
    var h', copy' := PutDir(h, d, row), copy.(dirs := copy.dirs[d := Picture(org, d, row)]);
    InsertedIsVisible(h, d, row);
    assert Kept(copy', d) ==> FileKept(copy', f);
    FileIsNot(h, f, d);
  }

  /** After a directory is inserted, by a create under a parent in view or by a root's
      transaction, the views are the same exactly when no entry of the copy lay under its id. */
  lemma RecreationIsExact(h: Hierarchy, copy: Copy, c: Command)
    requires Sound(h) && Agree(h, copy) && Mintable(c) && Inserted(h, c).Some?
    requires c.CreateDirectory? ==> Visible(h, Scope(h, c.org, c.parent).dir)
    ensures SameViews(Run(h, c).after, ApplyIf(copy, Run(h, c).event)) <==> NoOrphans(copy, Inserted(h, c).value)
  {
    hide Sound, Visible, Kept, NoOrphans, Agree, SameViews, FileVisible, FileKept, Run;
    if NoOrphans(copy, Inserted(h, c).value) {
      RunKeepsSound(h, c);
      RunAgrees(h, copy, c);
      AgreedViews(Run(h, c).after, ApplyIf(copy, Run(h, c).event));
    } else if c.CreateDirectory? {
      RecreatedLeaks(h, copy, c);
    } else {
      EnsuredLeaks(h, copy, c);
    }
  }

  /** A create under a parent out of view, raced beneath a deleting one, shows nothing yet. Where
      its organization's root stands, the next move of the directory under the root, by any name
      free there, shows what the copy laid under its id: the views agree now and after the move
      exactly when it laid nothing. */
  lemma MovedIntoViewIsExact(h: Hierarchy, copy: Copy, c: Command, name: string)
    requires Sound(h) && Agree(h, copy) && Mintable(c) && c.CreateDirectory? && Run(h, c).Committed?
    requires Stands(h, Scope(h, c.org, c.parent).root)
    requires ValidName(name) && !DirectoryNamed(Run(h, c).after, c.id, Scope(h, c.org, c.parent).root, Plain(name))
    ensures var h', copy' := Run(h, c).after, ApplyIf(copy, Run(h, c).event);
            var m := MoveDirectory(c.org, At(c.id), 1, Alias, name);
            && Run(h', m).Committed?
            && (SameViews(h', copy') && SameViews(Run(h', m).after, ApplyIf(copy', Run(h', m).event)) <==> NoOrphans(copy, c.id))
  {
    var root := Scope(h, c.org, c.parent).root;
    hide Sound, Visible, Kept, NoOrphans, Agree, SameViews, Run, DirectoryNamed;
    var h', copy' := Run(h, c).after, ApplyIf(copy, Run(h, c).event);
    var m := MoveDirectory(c.org, At(c.id), 1, Alias, name);
    var row := Directory(root, Plain(name), Active, 2);
    CreateInserts(h, c);
    CreatedThenMoved(h, copy, c, name);
    if NoOrphans(copy, c.id) {
      RunKeepsSound(h, c);
      RunAgrees(h, copy, c);
      AgreedViews(h', copy');
      InsertsNone(h', m);
      RunKeepsSound(h', m);
      RunAgrees(h', copy', m);
      AgreedViews(Run(h', m).after, ApplyIf(copy', Run(h', m).event));
    } else {
      RootInView(h, c.org, c.parent);
      OrphansLeak(h, copy, c.org, c.id, row);
    }
  }

  lemma InsertsNone(h: Hierarchy, c: Command)
    requires c.MoveDirectory?
    ensures Inserted(h, c) == None
  {
    hide Run;
  }

  lemma RootInView(h: Hierarchy, org: Id, ref: Ref)
    requires Sound(h) && Scope(h, org, ref).In? && Stands(h, Scope(h, org, ref).root)
    ensures Visible(h, Scope(h, org, ref).root)
  {
    hide IsForest, Unique, Housed;
    assert Reached(h, Scope(h, org, ref).root, 0);
  }

  /** The two transactions leave what one insert under the root would. */
  lemma CreatedThenMoved(h: Hierarchy, copy: Copy, c: Command, name: string)
    requires Sound(h) && Mintable(c) && c.CreateDirectory? && Run(h, c).Committed?
    requires Stands(h, Scope(h, c.org, c.parent).root)
    requires ValidName(name) && !DirectoryNamed(Run(h, c).after, c.id, Scope(h, c.org, c.parent).root, Plain(name))
    ensures var h', copy' := Run(h, c).after, ApplyIf(copy, Run(h, c).event);
            var m := MoveDirectory(c.org, At(c.id), 1, Alias, name);
            var row := Directory(Scope(h, c.org, c.parent).root, Plain(name), Active, 2);
            && c.id !in h.dirs && Run(h', m).Committed? && Run(h', m).after == PutDir(h, c.id, row)
            && ApplyIf(copy', Run(h', m).event) == copy.(dirs := copy.dirs[c.id := Picture(c.org, c.id, row)])
  {
    hide IsForest, Unique, Housed, Within, ValidName, DirectoryNamed;
    var s := Scope(h, c.org, c.parent);
    ScopeIsRow(h, c.org, c.parent);
    var row := Directory(s.dir, Plain(c.name), Active, 1);
    var h' := PutDir(h, c.id, row);
    RowIsBelowTop(h, s.root);
    assert h'.roots == h.roots;
    NewIsInside(h, c.id, row, s.root);
    assert Scope(h', c.org, At(c.id)) == In(s.root, c.id);
    assert PutDir(h', c.id, Directory(s.root, Plain(name), Active, 2)) == PutDir(h, c.id, Directory(s.root, Plain(name), Active, 2));
  }

  lemma NewIsInside(h: Hierarchy, id: Id, row: Directory, root: Id)
    requires Sound(h) && id !in h.dirs && id != TOP && row.parent in h.dirs && root in h.dirs && Within(ParentsIn(h), row.parent, root)
    requires h.dirs[root].parent == TOP
    ensures Within(ParentsIn(PutDir(h, id, row)), id, root) && !Within(ParentsIn(PutDir(h, id, row)), root, id)
  {
    hide Bound, Unique, Housed;
    InsertKeepsForest(h, id, row);
    Insert(ParentsIn(h), id, row.parent);
    WithinStep(ParentsIn(h), root, id);
    WithinOutside(ParentsIn(h), TOP, id);
    hide Within;
  }

  lemma RecreatedLeaks(h: Hierarchy, copy: Copy, c: Command)
    requires Sound(h) && Agree(h, copy) && c.CreateDirectory? && c.id != TOP && Run(h, c).Committed?
    requires Visible(h, Scope(h, c.org, c.parent).dir) && !NoOrphans(copy, c.id)
    ensures !SameViews(Run(h, c).after, ApplyIf(copy, Run(h, c).event))
  {
    hide Sound, Visible, Kept, NoOrphans, Agree, SameViews;
    var s := Scope(h, c.org, c.parent);
    var row := Directory(s.dir, Plain(c.name), Active, 1);
    RootStands(h, c.org, c.parent);
    RowIsBelowTop(h, s.dir);
    ShownIsPicture(h, c.org, s.root, c.id, row);
    OrphansLeak(h, copy, c.org, c.id, row);
  }

  /** A root's transaction that finds its owner row, or a directory to bind, inserts nothing. */
  lemma EnsuredLeaks(h: Hierarchy, copy: Copy, c: Command)
    requires Sound(h) && Agree(h, copy) && c.EnsureRoot? && c.id != TOP && Inserted(h, c).Some?
    requires !NoOrphans(copy, c.id)
    ensures !SameViews(Run(h, c).after, ApplyIf(copy, Run(h, c).event))
  {
    hide Sound, Visible, Kept, NoOrphans, Agree, SameViews;
    var row := Directory(TOP, OfOrganization(c.org), Active, 1);
    var made := PutDir(h, c.id, row);
    OrphansLeak(h, copy, c.org, c.id, row);
    ViewsAside(made, made.roots[c.org := c.id], ApplyIf(copy, Run(h, c).event));
  }

  /** What is in view does not depend on the owner rows. */
  lemma ViewsAside(h: Hierarchy, roots: map<Id, Id>, copy: Copy)
    ensures SameViews(h.(roots := roots), copy) == SameViews(h, copy)
  {
    forall d
      ensures Visible(h.(roots := roots), d) == Visible(h, d)
    {
      if n: nat :| Reached(h, d, n) {
        ReachedAside(h, roots, d, n);
      }
      if n: nat :| Reached(h.(roots := roots), d, n) {
        ReachedAside(h, roots, d, n);
      }
    }
    hide Visible, Kept, FileKept;
  }

  lemma {:induction false} ReachedAside(h: Hierarchy, roots: map<Id, Id>, d: Id, n: nat)
    ensures Reached(h.(roots := roots), d, n) == Reached(h, d, n)
    decreases n
  {
    if n > 0 && d in h.dirs {
      ReachedAside(h, roots, h.dirs[d].parent, n - 1);
    }
  }

  lemma AgreedViews(h: Hierarchy, copy: Copy)
    requires Sound(h) && Agree(h, copy)
    ensures SameViews(h, copy)
  {
    AgreeShows(h, copy);
  }

  lemma OrphansLeak(h: Hierarchy, copy: Copy, org: Id, d: Id, row: Directory)
    requires Sound(h) && Agree(h, copy) && d !in h.dirs && d != TOP && InView(h, row)
    requires !NoOrphans(copy, d)
    ensures !SameViews(PutDir(h, d, row), copy.(dirs := copy.dirs[d := Picture(org, d, row)]))
  {
    hide Sound, InView, SameViews;
    if x :| x in copy.dirs && x != d && copy.dirs[x].parent == Some(d) {
      OrphanDirLeaks(h, copy, org, d, row, x);
    } else {
      var f :| f in copy.files && copy.files[f].stored.Some? && copy.files[f].directory == d;
      OrphanFileLeaks(h, copy, org, d, row, f);
    }
  }

  // ---- A run that leaks ----

  /** A root, a seed's directory under its fixed id 5, a client's directory in it, the mark of
      the branch, its sweep, and the seed's rerun. */
  const ROOT := Directory(TOP, OfOrganization(7), Active, 1)
  const SEEDED := Directory(1, Plain("reports"), Active, 1)
  const CLIENTS := Directory(5, Plain("q1"), Active, 1)
  const CREATED := [EnsureRoot(7, true, 1), CreateDirectory(7, Alias, "reports", 5, false), CreateDirectory(7, At(5), "q1", 3, false)]
  const SWEPT := [MarkBranch(7, At(5), 1), SweepDirectory(3), SweepDirectory(5)]
  const RERUN := CreateDirectory(7, Alias, "reports", 5, false)

  const MADE := Hierarchy(map[1 := ROOT, 5 := SEEDED, 3 := CLIENTS], map[], map[7 := 1])
  const MARKED := Hierarchy(map[1 := ROOT, 5 := MarkedDir(SEEDED), 3 := MarkedDir(CLIENTS)], map[], map[7 := 1])
  const AGAIN := Hierarchy(map[1 := ROOT, 5 := SEEDED], map[], map[7 := 1])

  lemma Created()
    ensures Run(EMPTY, CREATED[0]) == Committed(Hierarchy(map[1 := ROOT], map[], map[7 := 1]), Some(DirectoryCreated(Picture(7, 1, ROOT))))
    ensures Run(Hierarchy(map[1 := ROOT], map[], map[7 := 1]), CREATED[1]) == Committed(AGAIN, Some(DirectoryCreated(Picture(7, 5, SEEDED))))
    ensures Run(AGAIN, CREATED[2]) == Committed(MADE, Some(DirectoryCreated(Picture(7, 3, CLIENTS))))
  {
    var h := Hierarchy(map[1 := ROOT], map[], map[7 := 1]);
    assert PutDir(EMPTY, 1, ROOT).(roots := EMPTY.roots[7 := 1]) == h;
    assert Up(ParentsIn(AGAIN), 5, 1) == 1;
  }

  lemma MadeMarks()
    ensures Scope(MADE, 7, At(5)) == In(1, 5) && Mark(MADE, 5) == MARKED
  {
    var p := ParentsIn(MADE);
    assert Up(p, 5, 1) == 1 && Up(p, 3, 1) == 5 && Up(p, 5, 0) == 5;
    WithinStep(p, 1, 5);
    WithinOutside(p, TOP, 5);
  }

  lemma Swept()
    ensures Run(MADE, SWEPT[0]) == Committed(MARKED, Some(DirectoryDeleted(5, 7, 2)))
    ensures Run(MARKED, SWEPT[1]) == Committed(DropDir(MARKED, 3), None)
    ensures Run(DropDir(MARKED, 3), SWEPT[2]) == Committed(Hierarchy(map[1 := ROOT], map[], map[7 := 1]), None)
  {
    hide Scope, Mark, Within;
    MadeMarks();
    assert DropDir(DropDir(MARKED, 3), 5) == Hierarchy(map[1 := ROOT], map[], map[7 := 1]);
  }

  lemma {:induction false} ExecAppend(s: State, a: seq<Command>, b: seq<Command>)
    ensures Exec(s, a + b) == Exec(Exec(s, a), b)
    decreases |a|
  {
    if a == [] {
      assert a + b == b;
    } else {
      assert (a + b)[1..] == a[1..] + b;
      ExecAppend(Next(s, a[0]), a[1..], b);
    }
  }

  lemma ExecThree(s: State, a: Command, b: Command, c: Command)
    ensures Exec(s, [a, b, c]) == Next(Next(Next(s, a), b), c)
  {
    hide Next;
    assert [a, b, c][1..] == [b, c] && [b, c][1..] == [c] && [c][1..] == [];
    assert Exec(Next(Next(s, a), b), [c]) == Exec(Next(Next(Next(s, a), b), c), []);
  }

  const CREATIONS := [DirectoryCreated(Picture(7, 1, ROOT)), DirectoryCreated(Picture(7, 5, SEEDED)), DirectoryCreated(Picture(7, 3, CLIENTS))]

  lemma RunToSwept() returns (s: State)
    ensures s == Exec(INITIAL, CREATED + SWEPT)
    ensures s.rows == Hierarchy(map[1 := ROOT], map[], map[7 := 1]) && s.log == CREATIONS + [DirectoryDeleted(5, 7, 2)]
  {
    hide Run, MADE, MARKED, AGAIN;
    Created();
    Swept();
    ExecThree(INITIAL, CREATED[0], CREATED[1], CREATED[2]);
    var made := Exec(INITIAL, CREATED);
    assert made.rows == MADE && made.log == CREATIONS;
    ExecThree(made, SWEPT[0], SWEPT[1], SWEPT[2]);
    ExecAppend(INITIAL, CREATED, SWEPT);
    s := Exec(made, SWEPT);
  }

  /** The rerun's directory brings the client's, swept long since, back in the copy alone. */
  lemma RerunLeaks()
    ensures var s := Exec(INITIAL, CREATED + SWEPT + [RERUN]);
            !Visible(s.rows, 3) && Kept(Replay(s.log), 3)
  {
    hide Run, Picture;
    var s := RunToSwept();
    Created();
    ExecAppend(INITIAL, CREATED + SWEPT, [RERUN]);
    var t := Next(s, RERUN);
    assert [RERUN][1..] == [] && Exec(t, []) == t;
    assert Exec(s, [RERUN]) == t;
    ReplaySwept();
    PicturesOwnIds();
    ReplayNext(s.log, DirectoryCreated(Picture(7, 5, SEEDED)));
    var copy := Replay(t.log);
    LeakedEntries(copy);
    VisibleStands(t.rows);
  }

  lemma ReplaySwept()
    ensures Replay(CREATIONS + [DirectoryDeleted(5, 7, 2)]).dirs
         == map[1 := Picture(7, 1, ROOT), 3 := Picture(7, 3, CLIENTS)]
  {
    hide Picture;
    var a, b, c := CREATIONS[0], CREATIONS[1], CREATIONS[2];
    ReplayNext([], a);
    ReplayNext([a], b);
    ReplayNext([a, b], c);
    ReplayNext([a, b, c], DirectoryDeleted(5, 7, 2));
    assert [] + [a] == [a] && [a] + [b] == [a, b] && [a, b] + [c] == CREATIONS == [a, b, c];
    PicturesOwnIds();
  }

  lemma PicturesOwnIds()
    ensures Picture(7, 1, ROOT).id == 1 && Picture(7, 5, SEEDED).id == 5 && Picture(7, 3, CLIENTS).id == 3
  {
  }

  lemma LeakedEntries(copy: Copy)
    requires copy.dirs == map[1 := Picture(7, 1, ROOT), 3 := Picture(7, 3, CLIENTS), 5 := Picture(7, 5, SEEDED)]
    ensures Kept(copy, 3)
  {
    assert Linked(copy, 1, 0);
    assert Linked(copy, 5, 1);
    assert Linked(copy, 3, 2);
  }
}
