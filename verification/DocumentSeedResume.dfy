/** A seed run again after it stopped, anywhere, and a seed run twice. */
module DocumentSeedResume {
  import opened Forest
  import opened Events
  import opened Documents
  import opened DocumentAnswers
  import opened DocumentStore
  import opened DocumentSeed
  import opened DocumentSeedRuns

  /** A run of the entry would change nothing: it stands, or it is not the seed's. */
  ghost predicate Settled(h: Hierarchy, parent: Id, e: Entry)
    decreases e, 1
  {
    if KindOf(e).IsDirectory? then
      match FindDir(h, parent, e.name)
      case Some(d) => h.dirs[d].status == Deleting || AllSettled(h, d, e.entries)
      case None => e.id in h.dirs || BeingDeletedIn(h, parent) || e.id == TOP
    else
      match FindFile(h, parent, e.name)
      case Some(f) => f != Fixed(e.id) || h.files[f].status != Pending
      case None => Fixed(e.id) in h.files || BeingDeletedIn(h, parent)
  }

  ghost predicate AllSettled(h: Hierarchy, parent: Id, entries: seq<Entry>)
    decreases entries, 0
  {
    entries != [] ==> Settled(h, parent, entries[0]) && AllSettled(h, parent, entries[1..])
  }

  // ---- Places apart ----

  lemma ChildNotAbove(h: Hierarchy, parent: Id, c: Id)
    requires IsForest(ParentsIn(h)) && c in h.dirs && h.dirs[c].parent == parent
    ensures !Within(ParentsIn(h), parent, c)
  {
    var p := ParentsIn(h);
    if Within(p, parent, c) {
      var n: nat :| Up(p, parent, n) == c;
      assert Up(p, c, n + 1) == c;
      NoCycle(p, c, n + 1);
    }
  }

  lemma SiblingsApart(h: Hierarchy, a: Id, b: Id, x: Id)
    requires IsForest(ParentsIn(h)) && a in h.dirs && b in h.dirs && a != b && h.dirs[a].parent == h.dirs[b].parent
    requires Within(ParentsIn(h), x, a)
    ensures !Within(ParentsIn(h), x, b)
  {
    var p := ParentsIn(h);
    if Within(p, x, b) {
      WithinLinear(p, x, a, b);
      WithinStep(p, a, b);
      WithinStep(p, b, a);
      ChildNotAbove(h, h.dirs[a].parent, a);
      ChildNotAbove(h, h.dirs[b].parent, b);
    }
  }

  /** What joins at other names of the parent leaves this name's place as it was. */
  lemma GrowsElsewhere(h: Hierarchy, h': Hierarchy, parent: Id, entries: seq<Entry>, name: string)
    requires Sound(h') && Persists(h, h') && GrowsAt(h, h', parent, entries) && !Listed(entries, name)
    ensures QuietAt(h, h', parent, name)
  {
    hide Within, Listed, Joined, IsForest, Bound, Unique, Housed;
    forall d | d in h'.dirs && d !in h.dirs
      ensures h'.dirs[d].parent != parent || h'.dirs[d].name != Plain(name)
      ensures forall c :: c in h.dirs && h.dirs[c].parent == parent && h.dirs[c].name == Plain(name) ==> !Within(ParentsIn(h'), h'.dirs[d].parent, c)
    {
      JoinedElsewhere(h', parent, entries, name, h'.dirs[d].parent, h'.dirs[d].name.text);
    }
    forall f | f in h'.files && f !in h.files
      ensures h'.files[f].directory != parent || h'.files[f].name != name
      ensures forall c :: c in h.dirs && h.dirs[c].parent == parent && h.dirs[c].name == Plain(name) ==> !Within(ParentsIn(h'), h'.files[f].directory, c)
    {
      JoinedElsewhere(h', parent, entries, name, h'.files[f].directory, h'.files[f].name);
    }
  }

  lemma JoinedElsewhere(h: Hierarchy, parent: Id, entries: seq<Entry>, name: string, place: Id, own: string)
    requires IsForest(ParentsIn(h)) && Joined(h, parent, entries, place, own) && !Listed(entries, name)
    ensures place != parent || own != name
    ensures forall c :: c in h.dirs && h.dirs[c].parent == parent && h.dirs[c].name == Plain(name) ==> !Within(ParentsIn(h), place, c)
  {
    hide IsForest, Within, Listed;
    if place == parent && Listed(entries, own) {
      forall c | c in h.dirs && h.dirs[c].parent == parent
        ensures !Within(ParentsIn(h), place, c)
      {
        ChildNotAbove(h, parent, c);
      }
    } else {
      var b :| b in h.dirs && h.dirs[b].parent == parent && h.dirs[b].name.Plain? && Listed(entries, h.dirs[b].name.text)
               && Within(ParentsIn(h), place, b);
      ChildNotAbove(h, parent, b);
      forall c | c in h.dirs && h.dirs[c].parent == parent && h.dirs[c].name == Plain(name)
        ensures !Within(ParentsIn(h), place, c)
      {
        SiblingsApart(h, b, c, place);
      }
    }
  }

  lemma QuietBelow(h: Hierarchy, h': Hierarchy, p: Id, name: string)
    requires Persists(h, h') && Quiet(h, h', p)
    ensures QuietAt(h, h', p, name)
  {
    WithinSelf(ParentsIn(h'), p);
    forall c | c in h.dirs && h.dirs[c].parent == p
      ensures Quiet(h, h', c)
    {
      WithinStep(ParentsIn(h'), c, p);
      forall x | Within(ParentsIn(h'), x, c)
        ensures Within(ParentsIn(h'), x, p)
      {
        WithinTransitive(ParentsIn(h'), x, c, p);
      }
    }
    hide Within;
  }

  // ---- What is settled stays settled ----

  lemma {:induction false} SettledStays(h: Hierarchy, h': Hierarchy, parent: Id, e: Entry)
    requires Unique(h) && Unique(h') && Persists(h, h') && QuietAt(h, h', parent, e.name) && parent in h.dirs
    requires Settled(h, parent, e)
    ensures Settled(h', parent, e)
    decreases e, 1
  {
    hide Quiet, AllSettled;
    if KindOf(e).IsDirectory? {
      match FindDir(h, parent, e.name)
      case Some(d) =>
        FindDirIs(h', parent, e.name, d);
        assert Quiet(h, h', d);
        if h.dirs[d].status != Deleting {
          hide QuietAt, Persists, Unique;
          AllSettledStay(h, h', d, e.entries);
        }
      case None =>
        assert FindDir(h', parent, e.name).None?;
    } else {
      match FindFile(h, parent, e.name)
      case Some(f) => FindFileIs(h', parent, e.name, f);
      case None => assert FindFile(h', parent, e.name).None?;
    }
  }

  lemma {:induction false} AllSettledStay(h: Hierarchy, h': Hierarchy, d: Id, entries: seq<Entry>)
    requires Unique(h) && Unique(h') && Persists(h, h') && Quiet(h, h', d) && d in h.dirs
    requires AllSettled(h, d, entries)
    ensures AllSettled(h', d, entries)
    decreases entries, 0
  {
    hide Unique, Persists, Quiet, QuietAt, Settled;
    if entries != [] {
      QuietBelow(h, h', d, entries[0].name);
      SettledStays(h, h', d, entries[0]);
      AllSettledStay(h, h', d, entries[1..]);
    }
  }

  // ---- A finished run settles its entries ----

  lemma {:induction false} FinishedSettles(org: Id, root: Id, parent: Id, entries: seq<Entry>, s: Snapshot, left: int)
    requires Sound(s.rows) && parent in s.rows.dirs && WellFormed(entries)
    requires SeedEntries(org, root, parent, entries, s, left).halt.None?
    ensures AllSettled(SeedEntries(org, root, parent, entries, s, left).store.rows, parent, entries)
    decreases entries, 0
  {
    hide Sound, Persists, GrowsAt, Listed, Settled, QuietAt;
    if entries != [] {
      var e := entries[0];
      var p := SeedEntry(org, root, parent, e, s, left);
      FinishedSettlesEntry(org, root, parent, e, s, left);
      SeedEntryKeeps(org, root, parent, e, s, left);
      RowPersists(s.rows, p.store.rows, parent);
      var q := SeedEntries(org, root, parent, entries[1..], p.store, p.left);
      FinishedSettles(org, root, parent, entries[1..], p.store, p.left);
      SeedEntriesKeep(org, root, parent, entries[1..], p.store, p.left);
      GrowsElsewhere(p.store.rows, q.store.rows, parent, entries[1..], e.name);
      UniqueOf(p.store.rows);
      UniqueOf(q.store.rows);
      SettledStays(p.store.rows, q.store.rows, parent, e);
    }
  }

  lemma UniqueOf(h: Hierarchy)
    requires Sound(h)
    ensures Unique(h)
  {
  }

  lemma {:induction false} FinishedSettlesEntry(org: Id, root: Id, parent: Id, e: Entry, s: Snapshot, left: int)
    requires Sound(s.rows) && parent in s.rows.dirs && WellFormedEntry(e)
    requires SeedEntry(org, root, parent, e, s, left).halt.None?
    ensures Settled(SeedEntry(org, root, parent, e, s, left).store.rows, parent, e)
    decreases e, 1
  {
    hide Sound, Persists, GrowsAt, Listed, AllSettled;
    if KindOf(e).IsDirectory? {
      var d := EnsureDirectory(org, root, parent, e, s);
      EnsureDirectoryKeeps(org, root, parent, e, s);
      if d.dir.Some? {
        var p := SeedEntries(org, root, d.dir.value, e.entries, d.store, left - 1);
        FinishedSettles(org, root, d.dir.value, e.entries, d.store, left - 1);
        SeedEntriesKeep(org, root, d.dir.value, e.entries, d.store, left - 1);
        RowPersists(d.store.rows, p.store.rows, d.dir.value);
        UniqueOf(p.store.rows);
        hide EnsureDirectory;
        FindDirIs(p.store.rows, parent, e.name, d.dir.value);
      }
    } else {
      FinishedSettlesFile(org, root, parent, e, s, left);
    }
  }

  lemma FinishedSettlesFile(org: Id, root: Id, parent: Id, e: Entry, s: Snapshot, left: int)
    requires Sound(s.rows) && parent in s.rows.dirs && WellFormedEntry(e) && KindOf(e).IsFile?
    requires SeedEntry(org, root, parent, e, s, left).halt.None?
    ensures Settled(SeedEntry(org, root, parent, e, s, left).store.rows, parent, e)
  {
    hide Sound, Persists, Listed;
    var b := BeginFile(parent, e, s);
    BeginFileKeeps(parent, e, s);
    if b.pending {
      hide BeginFile, FindFile;
      CompleteFileKeeps(org, parent, e, b.store);
    }
  }

  // ---- A settled entry changes nothing ----

  lemma {:induction false} SettledIsDone(org: Id, root: Id, parent: Id, entries: seq<Entry>, s: Snapshot, left: int)
    requires WellFormed(entries) && AllSettled(s.rows, parent, entries) && left < 0
    ensures var p := SeedEntries(org, root, parent, entries, s, left); p.store == s && p.created == 0 && p.halt.None? && p.left < 0
    decreases entries, 0
  {
    hide Settled, Listed;
    if entries != [] {
      SettledEntryIsDone(org, root, parent, entries[0], s, left);
      SettledIsDone(org, root, parent, entries[1..], s, SeedEntry(org, root, parent, entries[0], s, left).left);
    }
  }

  lemma {:induction false} SettledEntryIsDone(org: Id, root: Id, parent: Id, e: Entry, s: Snapshot, left: int)
    requires WellFormedEntry(e) && Settled(s.rows, parent, e) && left < 0
    ensures var p := SeedEntry(org, root, parent, e, s, left); p.store == s && p.created == 0 && p.halt.None? && p.left < 0
    decreases e, 1
  {
    hide AllSettled;
    if KindOf(e).IsDirectory? {
      match FindDir(s.rows, parent, e.name)
      case Some(d) =>
        if s.rows.dirs[d].status != Deleting {
          SettledIsDone(org, root, d, e.entries, s, left - 1);
        }
      case None =>
    }
  }

  // ---- How many transactions were left does not matter to a finished run ----

  lemma {:induction false} UnlimitedFinishes(org: Id, root: Id, parent: Id, entries: seq<Entry>, s: Snapshot, left: int)
    requires WellFormed(entries) && left < 0
    ensures var p := SeedEntries(org, root, parent, entries, s, left); p.halt.None? && p.left < 0
    decreases entries, 0
  {
    hide Listed;
    if entries != [] {
      UnlimitedFinishesEntry(org, root, parent, entries[0], s, left);
      var p := SeedEntry(org, root, parent, entries[0], s, left);
      UnlimitedFinishes(org, root, parent, entries[1..], p.store, p.left);
    }
  }

  lemma {:induction false} UnlimitedFinishesEntry(org: Id, root: Id, parent: Id, e: Entry, s: Snapshot, left: int)
    requires WellFormedEntry(e) && left < 0
    ensures var p := SeedEntry(org, root, parent, e, s, left); p.halt.None? && p.left < 0
    decreases e, 1
  {
    hide EnsureDirectory, BeginFile, CompleteFile;
    if KindOf(e).IsDirectory? {
      var d := EnsureDirectory(org, root, parent, e, s);
      if d.dir.Some? {
        UnlimitedFinishes(org, root, d.dir.value, e.entries, d.store, left - 1);
      }
    }
  }

  lemma {:induction false} FinishedAgree(org: Id, root: Id, parent: Id, entries: seq<Entry>, s: Snapshot, left: int,
          other: int)
    requires SeedEntries(org, root, parent, entries, s, left).halt.None?
    requires SeedEntries(org, root, parent, entries, s, other).halt.None?
    ensures var p, q := SeedEntries(org, root, parent, entries, s, left), SeedEntries(org, root, parent, entries, s, other);
            p.store == q.store && p.created == q.created
    decreases entries, 0
  {
    if entries != [] {
      FinishedAgreeEntry(org, root, parent, entries[0], s, left, other);
      var p, q := SeedEntry(org, root, parent, entries[0], s, left), SeedEntry(org, root, parent, entries[0], s, other);
      FinishedAgree(org, root, parent, entries[1..], p.store, p.left, q.left);
    }
  }

  lemma {:induction false} FinishedAgreeEntry(org: Id, root: Id, parent: Id, e: Entry, s: Snapshot, left: int,
          other: int)
    requires SeedEntry(org, root, parent, e, s, left).halt.None?
    requires SeedEntry(org, root, parent, e, s, other).halt.None?
    ensures var p, q := SeedEntry(org, root, parent, e, s, left), SeedEntry(org, root, parent, e, s, other);
            p.store == q.store && p.created == q.created
    decreases e, 1
  {
    hide EnsureDirectory, BeginFile, CompleteFile;
    if KindOf(e).IsDirectory? {
      var d := EnsureDirectory(org, root, parent, e, s);
      if d.dir.Some? {
        FinishedAgree(org, root, d.dir.value, e.entries, d.store, left - 1, other - 1);
      }
    }
  }

  // ---- A rerun ----

  /** What a run from s reaches in full. */
  ghost function Full(org: Id, root: Id, parent: Id, entries: seq<Entry>, s: Snapshot): Progress {
    SeedEntries(org, root, parent, entries, s, UNLIMITED)
  }

  ghost function FullEntry(org: Id, root: Id, parent: Id, e: Entry, s: Snapshot): Progress {
    SeedEntry(org, root, parent, e, s, UNLIMITED)
  }

  /** A full run of a list is one of its first entry and then one of the rest. */
  lemma FullStep(org: Id, root: Id, parent: Id, entries: seq<Entry>, s: Snapshot)
    requires WellFormed(entries) && entries != []
    ensures var first := FullEntry(org, root, parent, entries[0], s);
            var rest := Full(org, root, parent, entries[1..], first.store);
            var all := Full(org, root, parent, entries, s);
            all.store == rest.store && all.created == first.created + rest.created && all.halt.None?
  {
    hide Listed;
    var first := FullEntry(org, root, parent, entries[0], s);
    UnlimitedFinishesEntry(org, root, parent, entries[0], s, UNLIMITED);
    UnlimitedFinishes(org, root, parent, entries[1..], first.store, first.left);
    UnlimitedFinishes(org, root, parent, entries[1..], first.store, UNLIMITED);
    FinishedAgree(org, root, parent, entries[1..], first.store, first.left, UNLIMITED);
  }

  /** Run to its end after any stop, a seed reaches the rows and the events one run would
      have, and creates what that run would have, less what was created before the stop. */
  lemma {:induction false} Resumes(org: Id, root: Id, parent: Id, entries: seq<Entry>, s: Snapshot, left: int)
    requires Sound(s.rows) && parent in s.rows.dirs && WellFormed(entries)
    ensures var p := SeedEntries(org, root, parent, entries, s, left);
            var again, once := Full(org, root, parent, entries, p.store), Full(org, root, parent, entries, s);
            again.store == once.store && p.created + again.created == once.created
    decreases entries, 0
  {
    hide Sound, Persists, GrowsAt, Listed, QuietAt, Settled, AllSettled, Full, FullEntry;
    if entries == [] {
      EmptyRun(org, root, parent, s, UNLIMITED);
    } else {
      var e := entries[0];
      var p := SeedEntry(org, root, parent, e, s, left);
      FullStep(org, root, parent, entries, s);
      if p.halt.Some? {
        ResumesEntry(org, root, parent, e, s, left);
        FullStep(org, root, parent, entries, p.store);
      } else {
        FinishedFirst(org, root, parent, e, s, left);
        SeedEntryKeeps(org, root, parent, e, s, left);
        RowPersists(s.rows, p.store.rows, parent);
        Resumes(org, root, parent, entries[1..], p.store, p.left);
        var q := SeedEntries(org, root, parent, entries[1..], p.store, p.left);
        FirstStaysDone(org, root, parent, entries, s, left);
        FullStep(org, root, parent, entries, q.store);
      }
    }
  }

  lemma EmptyRun(org: Id, root: Id, parent: Id, s: Snapshot, left: int)
    ensures SeedEntries(org, root, parent, [], s, left) == Progress(s, left, 0, None)
    ensures Full(org, root, parent, [], s) == Progress(s, UNLIMITED, 0, None)
  {
  }

  lemma FinishedFirst(org: Id, root: Id, parent: Id, e: Entry, s: Snapshot, left: int)
    requires WellFormedEntry(e) && SeedEntry(org, root, parent, e, s, left).halt.None?
    ensures var p, f := SeedEntry(org, root, parent, e, s, left), FullEntry(org, root, parent, e, s);
            p.store == f.store && p.created == f.created
  {
    UnlimitedFinishesEntry(org, root, parent, e, s, UNLIMITED);
    FinishedAgreeEntry(org, root, parent, e, s, left, UNLIMITED);
  }

  /** Once the first entry is done, whatever of the rest has run, a run of it changes
      nothing. */
  lemma FirstStaysDone(org: Id, root: Id, parent: Id, entries: seq<Entry>, s: Snapshot, left: int)
    requires Sound(s.rows) && parent in s.rows.dirs && WellFormed(entries) && entries != []
    requires SeedEntry(org, root, parent, entries[0], s, left).halt.None?
    ensures var p := SeedEntry(org, root, parent, entries[0], s, left);
            var q := SeedEntries(org, root, parent, entries[1..], p.store, p.left);
            var f := FullEntry(org, root, parent, entries[0], q.store);
            f.store == q.store && f.created == 0
  {
    hide Sound, Persists, GrowsAt, Listed, QuietAt, Settled, SeedEntry, SeedEntries;
    var e := entries[0];
    var p := SeedEntry(org, root, parent, e, s, left);
    SeedEntryKeeps(org, root, parent, e, s, left);
    RowPersists(s.rows, p.store.rows, parent);
    FinishedSettlesEntry(org, root, parent, e, s, left);
    var q := SeedEntries(org, root, parent, entries[1..], p.store, p.left);
    SeedEntriesKeep(org, root, parent, entries[1..], p.store, p.left);
    GrowsElsewhere(p.store.rows, q.store.rows, parent, entries[1..], e.name);
    UniqueOf(p.store.rows);
    UniqueOf(q.store.rows);
    SettledStays(p.store.rows, q.store.rows, parent, e);
    SettledEntryIsDone(org, root, parent, e, q.store, UNLIMITED);
  }

  lemma {:induction false} ResumesEntry(org: Id, root: Id, parent: Id, e: Entry, s: Snapshot, left: int)
    requires Sound(s.rows) && parent in s.rows.dirs && WellFormedEntry(e)
    ensures var p := SeedEntry(org, root, parent, e, s, left);
            var again, once := FullEntry(org, root, parent, e, p.store), FullEntry(org, root, parent, e, s);
            again.store == once.store && p.created + again.created == once.created
    decreases e, 1
  {
    hide Sound, Persists, GrowsAt, Listed, QuietAt;
    if left != 0 {
      if KindOf(e).IsDirectory? {
        ResumesDirectory(org, root, parent, e, s, left);
      } else {
        ResumesFile(org, root, parent, e, s, left);
      }
    }
  }

  lemma {:induction false} ResumesDirectory(org: Id, root: Id, parent: Id, e: Entry, s: Snapshot, left: int)
    requires Sound(s.rows) && parent in s.rows.dirs && WellFormedEntry(e) && KindOf(e).IsDirectory? && left != 0
    ensures var p := SeedEntry(org, root, parent, e, s, left);
            var again, once := FullEntry(org, root, parent, e, p.store), FullEntry(org, root, parent, e, s);
            again.store == once.store && p.created + again.created == once.created
    decreases e, 0
  {
    hide Sound, Persists, GrowsAt, Listed, QuietAt, EnsureDirectory, FindDir, SeedEntries;
    var d := EnsureDirectory(org, root, parent, e, s);
    EnsureDirectoryKeeps(org, root, parent, e, s);
    if d.dir.Some? {
      var sub := SeedEntries(org, root, d.dir.value, e.entries, d.store, left - 1);
      SeedEntriesKeep(org, root, d.dir.value, e.entries, d.store, left - 1);
      RowPersists(d.store.rows, sub.store.rows, d.dir.value);
      FoundAgain(org, root, parent, e, d.dir.value, sub.store);
      Resumes(org, root, d.dir.value, e.entries, d.store, left - 1);
      BelowUnlimited(org, root, d.dir.value, e.entries, d.store);
      BelowUnlimited(org, root, d.dir.value, e.entries, sub.store);
    }
  }

  lemma FoundAgain(org: Id, root: Id, parent: Id, e: Entry, d: Id, s: Snapshot)
    requires Sound(s.rows) && d in s.rows.dirs && s.rows.dirs[d].parent == parent
    requires s.rows.dirs[d].name == Plain(e.name)
    requires s.rows.dirs[d].status == Active
    ensures EnsureDirectory(org, root, parent, e, s) == Ensured(s, Some(d), false)
  {
    hide IsForest, Bound, Housed, UniqueFiles;
    FindDirIs(s.rows, parent, e.name, d);
  }

  lemma BelowUnlimited(org: Id, root: Id, d: Id, entries: seq<Entry>, s: Snapshot)
    requires WellFormed(entries)
    ensures var p, q := SeedEntries(org, root, d, entries, s, UNLIMITED - 1), Full(org, root, d, entries, s);
            p.store == q.store && p.created == q.created && p.halt.None? && q.halt.None?
  {
    UnlimitedFinishes(org, root, d, entries, s, UNLIMITED - 1);
    UnlimitedFinishes(org, root, d, entries, s, UNLIMITED);
    FinishedAgree(org, root, d, entries, s, UNLIMITED - 1, UNLIMITED);
  }

  lemma ResumesFile(org: Id, root: Id, parent: Id, e: Entry, s: Snapshot, left: int)
    requires Sound(s.rows) && parent in s.rows.dirs && WellFormedEntry(e) && KindOf(e).IsFile? && left != 0
    ensures var p := SeedEntry(org, root, parent, e, s, left);
            var again, once := FullEntry(org, root, parent, e, p.store), FullEntry(org, root, parent, e, s);
            again.store == once.store && p.created + again.created == once.created
  {
    hide Sound, Persists, Listed, CompleteFile;
    var b := BeginFile(parent, e, s);
    BeginFileKeeps(parent, e, s);
    if b.pending {
      assert BeginFile(parent, e, b.store) == b;
      hide BeginFile, FindFile;
      var p := SeedEntry(org, root, parent, e, s, left);
      if p.halt.None? {
        FinishedFirst(org, root, parent, e, s, left);
        FileIsDone(org, root, parent, e, s, left);
      }
    }
  }

  lemma FileIsDone(org: Id, root: Id, parent: Id, e: Entry, s: Snapshot, left: int)
    requires Sound(s.rows) && parent in s.rows.dirs && WellFormedEntry(e) && KindOf(e).IsFile?
    requires SeedEntry(org, root, parent, e, s, left).halt.None?
    ensures var p := SeedEntry(org, root, parent, e, s, left);
            var again := FullEntry(org, root, parent, e, p.store);
            again.store == p.store && again.created == 0
  {
    hide Sound, Settled, SeedEntry;
    FinishedSettlesFile(org, root, parent, e, s, left);
    SettledEntryIsDone(org, root, parent, e, SeedEntry(org, root, parent, e, s, left).store, UNLIMITED);
  }
}
