/** The documents' seed: each entry ensured under its parent in file order, a directory in one
    transaction and a file in two, and a run that may stop between any two of them. A rerun
    after any stop reaches what one run would have, and commits the events it had left. */
module DocumentSeed {
  import opened Forest
  import opened Events
  import opened Documents
  import opened DocumentAnswers
  import opened DocumentStore

  /** An entry as the state file declares it; listed says it carries entries, which may be
      an empty list. */
  datatype Entry = Entry(id: nat, name: string, listed: bool, entries: seq<Entry>, contentType: string, content: string)

  datatype Kind = IsDirectory | IsFile | Both | Neither

  /** A directory carries entries, a file a content type; an entry of both kinds or of
      neither is a defect. */
  function KindOf(e: Entry): Kind {
    if e.listed && (e.contentType != "" || e.content != "") then Both
    else if !e.listed && e.contentType == "" then Neither
    else if e.listed then IsDirectory else IsFile
  }

  /** Why a run ended early: stopped between two transactions, or refused an entry. */
  datatype Halt = Stopped | Defect(name: string)

  /** Where a run has come to, the transactions it may still run (any number, if negative),
      the entries it created or completed, and why it ended early, if it did. */
  datatype Progress = Progress(store: Snapshot, left: int, created: nat, halt: Option<Halt>)

  // ---- One transaction of an entry ----

  ghost function FindDir(h: Hierarchy, parent: Id, name: string): Option<Id> {
    DirAt(h.dirs, parent, name)
  }

  ghost function DirAt(dirs: map<Id, Directory>, parent: Id, name: string): Option<Id> {
    if d :| d in dirs && dirs[d].parent == parent && dirs[d].name == Plain(name) then Some(d) else None
  }

  ghost function FindFile(h: Hierarchy, parent: Id, name: string): Option<FileId> {
    FileAt(h.files, parent, name)
  }

  ghost function FileAt(files: map<FileId, File>, parent: Id, name: string): Option<FileId> {
    if f :| f in files && files[f].directory == parent && files[f].name == name then Some(f) else None
  }

  predicate BeingDeletedIn(h: Hierarchy, parent: Id) {
    parent in h.dirs && h.dirs[parent].status == Deleting
  }

  /** The directory the entry's own are ensured in, none where it is left as it stands, and
      whether this transaction created it. */
  datatype Ensured = Ensured(store: Snapshot, dir: Option<Id>, created: bool)

  ghost function EnsureDirectory(org: Id, root: Id, parent: Id, e: Entry, s: Snapshot): Ensured {
    match FindDir(s.rows, parent, e.name)
    case Some(d) => Ensured(s, if s.rows.dirs[d].status == Deleting then None else Some(d), false)
    case None =>
      if e.id in s.rows.dirs || BeingDeletedIn(s.rows, parent) || e.id == TOP then Ensured(s, None, false)
      else
        var row := Directory(parent, Plain(e.name), Active, 1);
        Ensured(Snapshot(PutDir(s.rows, e.id, row), s.log + [DirectoryCreated(Shown(org, root, e.id, row))]), Some(e.id), true)
  }

  /** The write's first transaction, and whether the file is then the seed's to complete. */
  datatype Began = Began(store: Snapshot, pending: bool)

  ghost function BeginFile(parent: Id, e: Entry, s: Snapshot): Began {
    match FindFile(s.rows, parent, e.name)
    case Some(f) => Began(s, f == Fixed(e.id) && s.rows.files[f].status == Pending)
    case None =>
      if Fixed(e.id) in s.rows.files || BeingDeletedIn(s.rows, parent) then Began(s, false)
      else Began(s.(rows := PutFile(s.rows, Fixed(e.id), File(parent, e.name, e.contentType, Pending, None, 1))), true)
  }

  function ContentOf(e: Entry): Object { Object(|e.content|, e.content) }

  /** The completion, once the content is put, with its event. */
  function CompleteFile(org: Id, e: Entry, s: Snapshot): Snapshot
    requires Fixed(e.id) in s.rows.files
  {
    var row := s.rows.files[Fixed(e.id)];
    var done := row.(status := Available, stored := Some(ContentOf(e)), version := row.version + 1);
    Snapshot(PutFile(s.rows, Fixed(e.id), done), s.log + [FileUploaded(DataOf(org, Fixed(e.id), done))])
  }

  // ---- A run ----

  ghost function SeedEntries(org: Id, root: Id, parent: Id, entries: seq<Entry>, s: Snapshot, left: int): Progress
    decreases entries, 0
  {
    if entries == [] then Progress(s, left, 0, None)
    else
      var p := SeedEntry(org, root, parent, entries[0], s, left);
      if p.halt.Some? then p
      else
        var q := SeedEntries(org, root, parent, entries[1..], p.store, p.left);
        q.(created := p.created + q.created)
  }

  ghost function SeedEntry(org: Id, root: Id, parent: Id, e: Entry, s: Snapshot, left: int): Progress
    decreases e, 1
  {
    if KindOf(e).Both? || KindOf(e).Neither? || !ValidName(e.name) then Progress(s, left, 0, Some(Defect(e.name)))
    else if left == 0 then Progress(s, left, 0, Some(Stopped))
    else if KindOf(e).IsDirectory? then
      var d := EnsureDirectory(org, root, parent, e, s);
      if d.dir.None? then Progress(d.store, left - 1, 0, None)
      else
        var p := SeedEntries(org, root, d.dir.value, e.entries, d.store, left - 1);
        p.(created := p.created + if d.created then 1 else 0)
    else
      var b := BeginFile(parent, e, s);
      if !b.pending then Progress(b.store, left - 1, 0, None)
      else if left - 1 == 0 then Progress(b.store, 0, 0, Some(Stopped))
      else if Fixed(e.id) !in b.store.rows.files then Progress(b.store, left - 2, 0, None)
      else Progress(CompleteFile(org, e, b.store), left - 2, 1, None)
  }

  const UNLIMITED := -1

  /** The organization's root, under the tree's own id if the seed creates it, then its
      entries; the root is not counted. */
  ghost function SeedTree(org: Id, stands: bool, rootId: Id, entries: seq<Entry>, s: Snapshot, left: int): Progress {
    if left == 0 then Progress(s, left, 0, Some(Stopped))
    else
      match RunEnsureRoot(s.rows, org, stands, rootId)
      case Refused(_) => Progress(s, left, 0, Some(Defect("/")))
      case Committed(h, e) =>
        var rooted := Step(s, EnsureRoot(org, stands, rootId));
        if org !in h.roots then Progress(rooted, left - 1, 0, None)
        else SeedEntries(org, h.roots[org], h.roots[org], entries, rooted, left - 1)
  }

  // ---- Well-formed seeds ----

  predicate Listed(entries: seq<Entry>, name: string) {
    exists i :: 0 <= i < |entries| && entries[i].name == name
  }

  /** Each entry a directory or a file under a valid name, and no name twice among siblings. */
  predicate WellFormed(entries: seq<Entry>)
    decreases entries, 0
  {
    entries != [] ==> WellFormedEntry(entries[0]) && !Listed(entries[1..], entries[0].name) && WellFormed(entries[1..])
  }

  predicate WellFormedEntry(e: Entry)
    decreases e, 1
  {
    && ValidName(e.name) && (KindOf(e).IsDirectory? || KindOf(e).IsFile?)
    && (e.listed ==> WellFormed(e.entries))
  }

  // ---- What a run leaves as it was ----

  /** Rows only join: a directory's row stays as it is, a file's stays where it is, and only
      a pending one is completed. */
  ghost predicate Persists(h: Hierarchy, h': Hierarchy) {
    && h'.roots == h.roots
    && (forall d :: d in h.dirs ==> d in h'.dirs && h'.dirs[d] == h.dirs[d])
    && (forall f :: f in h.files ==>
          && f in h'.files && h'.files[f].directory == h.files[f].directory && h'.files[f].name == h.files[f].name
          && (h'.files[f].status == Pending ==> h.files[f].status == Pending))
  }

  /** No row joined at p. */
  ghost predicate Quiet(h: Hierarchy, h': Hierarchy, p: Id) {
    && (forall d :: d in h'.dirs && d !in h.dirs ==> !Within(ParentsIn(h'), h'.dirs[d].parent, p))
    && (forall f :: f in h'.files && f !in h.files ==> !Within(ParentsIn(h'), h'.files[f].directory, p))
  }

  /** No row joined under the parent with the name, or beneath the directory that has it. */
  ghost predicate QuietAt(h: Hierarchy, h': Hierarchy, parent: Id, name: string) {
    && (forall d :: d in h'.dirs && d !in h.dirs ==> h'.dirs[d].parent != parent || h'.dirs[d].name != Plain(name))
    && (forall f :: f in h'.files && f !in h.files ==> h'.files[f].directory != parent || h'.files[f].name != name)
    && (forall c :: c in h.dirs && h.dirs[c].parent == parent && h.dirs[c].name == Plain(name) ==> Quiet(h, h', c))
  }

  lemma {:induction false} UpPersists(h: Hierarchy, h': Hierarchy, d: Id, n: nat)
    requires Persists(h, h') && IsForest(ParentsIn(h)) && IsForest(ParentsIn(h')) && (d == TOP || d in h.dirs)
    ensures Up(ParentsIn(h'), d, n) == Up(ParentsIn(h), d, n)
    decreases n
  {
    assert TOP !in ParentsIn(h) && TOP !in ParentsIn(h');
    if n > 0 && d in h.dirs {
      ParentStands(h, d);
      UpPersists(h, h', h.dirs[d].parent, n - 1);
    }
  }

  lemma WithinPersists(h: Hierarchy, h': Hierarchy, d: Id, a: Id)
    requires Persists(h, h') && IsForest(ParentsIn(h)) && IsForest(ParentsIn(h')) && d in h.dirs
    ensures Within(ParentsIn(h'), d, a) <==> Within(ParentsIn(h), d, a)
  {
    hide IsForest, Persists;
    if Within(ParentsIn(h), d, a) {
      var n: nat :| Up(ParentsIn(h), d, n) == a;
      UpPersists(h, h', d, n);
    }
    if Within(ParentsIn(h'), d, a) {
      var n: nat :| Up(ParentsIn(h'), d, n) == a;
      UpPersists(h, h', d, n);
    }
  }
}
