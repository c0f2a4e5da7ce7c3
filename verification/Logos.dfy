/** The organizations' logos: any number of PUTs, DELETEs, and sweeps at once, and one seed,
    each transaction's reads and its commit as steps of their own. A file's row, its object,
    and the image that binds it change in different steps; two unique constraints and the
    hold decide who wins. */
module Logos {
  import opened Forest
  import opened Events

  datatype LogoFile = LogoFile(status: FileStatus, version: nat)

  /** Who wrote a file that is to be activated: a PUT, or a seed, which may have found it
      complete rather than stored it. */
  datatype Writer = ByPut | BySeed(stored: bool)

  /** Where a request, a seed, or a sweep's removal has come to. */
  datatype Client =
    | Writing(org: Id, file: FileId, seed: bool)                        // its pending row committed
    | Stored(org: Id, file: FileId, seed: bool)                         // its object put
    | Completed(org: Id, file: FileId, version: nat, writer: Writer)        // its row available
    | Held(org: Id, file: FileId, version: nat, writer: Writer)             // activating: the file held
    | Seen(org: Id, file: FileId, version: nat, writer: Writer, current: Option<FileId>)  // and the active logo read
    | Refused(file: FileId)                                             // the activation rolled back
    | Reading(org: Id, current: Option<FileId>)                         // a DELETE that read the active logo
    | Purging(file: FileId)                                             // a begun delete committed
    | Erasing(file: FileId)                                             // and its object removed
    | Leaked(file: FileId)                                              // the removal itself failed, and was reported
    | Finished

  /** Each image is its organization's active one; a file is bound by one image at most. */
  datatype State = State(orgs: set<Id>, files: map<FileId, LogoFile>, objects: set<FileId>, images: map<FileId, Id>,
                         clients: map<nat, Client>, log: seq<Event>)

  const EMPTY := State({}, map[], {}, map[], map[], [])

  /** A client's own step, with what only the engine or the store decides: refused says a
      removal fails, and lenient that deleting a file already deleting succeeds. */
  datatype Step =
    | CreateOrganization(org: Id)
    | DeleteOrganization(org: Id)
    | BeginPut(c: nat, org: Id, file: FileId)
    | BeginSeed(c: nat, org: Id, id: nat)
    | PutObject(c: nat)
    | FailPut(c: nat)
    | Complete(c: nat)
    | Hold(c: nat)
    | Read(c: nat)
    | Activate(c: nat, lenient: bool)
    | Remove(c: nat, fails: bool)
    | BeginDelete(c: nat, org: Id)
    | CommitDelete(c: nat, lenient: bool)
    | Wipe(c: nat)
    | Erase(c: nat)
    | FailPurge(c: nat)
    | SweepMark(file: FileId)
    | SweepClaim(c: nat, file: FileId)

  // ---- The rows ----

  predicate Is(s: State, f: FileId, status: FileStatus) {
    f in s.files && s.files[f].status == status
  }

  /** The organization's active logo. */
  ghost function ActiveLogo(s: State, org: Id): Option<FileId> {
    ActiveIn(s.images, org)
  }

  ghost function ActiveIn(images: map<FileId, Id>, org: Id): Option<FileId> {
    if f :| f in images && images[f] == org then Some(f) else None
  }

  predicate Bound(images: map<FileId, Id>, org: Id) {
    exists f :: f in images && images[f] == org
  }

  /** The delete protocol's first transaction. */
  function Doom(s: State, f: FileId): State {
    if f in s.files && s.files[f].status != Doomed then s.(files := s.files[f := LogoFile(Doomed, s.files[f].version + 1)]) else s
  }

  function To(s: State, c: nat, pc: Client): State {
    s.(clients := s.clients[c := pc])
  }

  // ---- What a client has a hand on ----

  /** The file the client is writing, activating, or retiring. */
  function Work(pc: Client): Option<FileId> {
    if pc.Writing? || pc.Stored? || pc.Completed? || pc.Held? || pc.Seen? || pc.Refused? then Some(pc.file) else None
  }

  /** The file the client's transaction holds. */
  function Keeps(pc: Client): Option<FileId> {
    if pc.Held? || pc.Seen? then Some(pc.file) else None
  }

  /** The logo the client read as active and is to release. */
  function Current(pc: Client): Option<FileId> {
    if pc.Seen? || pc.Reading? then pc.current else None
  }

  function Removal(pc: Client): Option<FileId> {
    if pc.Purging? || pc.Erasing? then Some(pc.file) else None
  }

  predicate Mentions(pc: Client, f: FileId) {
    Work(pc) == Some(f) || Current(pc) == Some(f) || Removal(pc) == Some(f)
  }

  predicate Mentioned(s: State, f: FileId) {
    exists c :: c in s.clients && Mentions(s.clients[c], f)
  }

  predicate HeldByAnother(s: State, c: nat, f: FileId) {
    exists d :: d in s.clients && d != c && Keeps(s.clients[d]) == Some(f)
  }

  predicate Seeds(pc: Client) {
    || ((pc.Writing? || pc.Stored?) && pc.seed)
    || ((pc.Completed? || pc.Held? || pc.Seen?) && pc.writer.BySeed?)
    || (pc.Refused? && pc.file.Fixed?)
  }

  predicate Seeding(s: State) {
    exists c :: c in s.clients && Seeds(s.clients[c])
  }

  // ---- The steps ----

  /** What would undo a seed of the file under its fixed id, once bound: a removal of the file
      it was whose object's delete is still to come, or another organization's client that read
      that file as its active logo and is to release it. */
  predicate Endangered(s: State, org: Id, f: FileId) {
    f !in s.images && ((f !in s.files && Purged(s, f)) || ReadForAnother(s, org, f))
  }

  predicate Purged(s: State, f: FileId) {
    exists c :: c in s.clients && s.clients[c] == Purging(f)
  }

  predicate ReadForAnother(s: State, org: Id, f: FileId) {
    exists c :: c in s.clients && ReadBy(s.clients[c], f) && s.clients[c].org != org
  }

  predicate ReadBy(pc: Client, f: FileId) {
    (pc.Seen? || pc.Reading?) && pc.current == Some(f)
  }

  /** A seed finds its file, resumes it, or begins it. guarded says it does so only where
      nothing endangers it. */
  function StartSeed(guarded: bool, s: State, c: nat, org: Id, f: FileId): State {
    if guarded && Endangered(s, org, f) then s
    else if f !in s.files then To(s.(files := s.files[f := LogoFile(Pending, 1)]), c, Writing(org, f, true))
    else if s.files[f].status == Pending then To(s, c, Writing(org, f, true))
    else if s.files[f].status == Available then To(s, c, Completed(org, f, s.files[f].version, BySeed(false)))
    else s
  }

  /** The completion: of a row gone or deleting it is refused, and the object just put is
      removed. */
  function Finish(s: State, c: nat, pc: Client): State
    requires pc.Stored?
  {
    var f := pc.file;
    if Is(s, f, Pending) then
      var v := s.files[f].version + 1;
      To(s.(files := s.files[f := LogoFile(Available, v)]), c, Completed(pc.org, f, v, if pc.seed then BySeed(true) else ByPut))
    else if Is(s, f, Available) then
      if pc.seed then To(s, c, Completed(pc.org, f, s.files[f].version, BySeed(false))) else s
    else To(s, c, Purging(f))
  }

  /** Where an activation that did not stand leaves its client: a file the run stored is
      retired, one it found is left. */
  function Rejected(pc: Client): Client
    requires pc.Completed? || pc.Held? || pc.Seen?
  {
    if pc.writer == ByPut || pc.writer == BySeed(true) then Refused(pc.file) else Finished
  }

  ghost function ReadActive(s: State, pc: Client): Client
    requires pc.Held?
  {
    var current := ActiveLogo(s, pc.org);
    if pc.writer == ByPut || current.None? then Seen(pc.org, pc.file, pc.version, pc.writer, current)
    else if current == Some(pc.file) then Finished
    else Rejected(pc)
  }

  /** Whether the release of the logo read goes through: the file stands, and deleting it
      again is let through if its delete has begun. */
  predicate Releases(s: State, current: Option<FileId>, lenient: bool) {
    current.Some? ==> current.value in s.files && (s.files[current.value].status == Doomed ==> lenient)
  }

  function Released(s: State, current: Option<FileId>): State {
    if current.Some? then Doom(s.(images := s.images - {current.value}), current.value) else s
  }

  /** The activation's commit: release the logo read, bind the file, and emit; or roll back. */
  function Activation(s: State, c: nat, pc: Client, lenient: bool): State
    requires pc.Seen?
  {
    var r := Released(s, pc.current);
    if pc.org !in s.orgs || !Releases(s, pc.current, lenient) || Bound(r.images, pc.org) || pc.file in s.images then
      To(s, c, if pc.file in s.images then Finished else Rejected(pc))
    else
      To(r.(images := r.images[pc.file := pc.org], log := s.log + [LogoUploaded(pc.file, pc.org, pc.version)]), c,
         if pc.current.Some? then Purging(pc.current.value) else Finished)
  }

  function Deletion(s: State, c: nat, pc: Client, lenient: bool): State
    requires pc.Reading? && pc.current.Some?
  {
    if !Releases(s, pc.current, lenient) then To(s, c, Finished)
    else
      var r := Released(s, pc.current);
      var f := pc.current.value;
      To(r.(log := s.log + [LogoDeleted(f, pc.org, if f in r.files then r.files[f].version else 0)]), c, Purging(f))
  }

  /** One step; one not enabled, a wait for a held row among them, changes nothing. */
  ghost function Next(guarded: bool, s: State, step: Step): State {
    match step
    case CreateOrganization(org) => s.(orgs := s.orgs + {org})
    case DeleteOrganization(org) => if Bound(s.images, org) then s else s.(orgs := s.orgs - {org})
    case BeginPut(c, org, f) =>
      if c in s.clients || org !in s.orgs || !f.Minted? || f in s.files || Mentioned(s, f) then s
      else To(s.(files := s.files[f := LogoFile(Pending, 1)]), c, Writing(org, f, false))
    case BeginSeed(c, org, id) =>
      if c in s.clients || org !in s.orgs || Seeding(s) then s else StartSeed(guarded, s, c, org, Fixed(id))
    case SweepMark(f) => if Is(s, f, Pending) then s.(files := s.files[f := LogoFile(Doomed, s.files[f].version)]) else s
    case SweepClaim(c, f) => if c in s.clients || !Is(s, f, Doomed) then s else To(s, c, Purging(f))
    case BeginDelete(c, org) =>
      if c in s.clients || ActiveLogo(s, org).None? then s else To(s, c, Reading(org, ActiveLogo(s, org)))
    case PutObject(c) =>
      if c !in s.clients || !s.clients[c].Writing? then s
      else To(s.(objects := s.objects + {s.clients[c].file}), c, Stored(s.clients[c].org, s.clients[c].file, s.clients[c].seed))
    case FailPut(c) =>
      if c !in s.clients || !(s.clients[c].Writing? || s.clients[c].Stored?) then s
      else if Is(s, s.clients[c].file, Pending) then
        To(s.(files := s.files[s.clients[c].file := LogoFile(Doomed, s.files[s.clients[c].file].version)]), c, Purging(s.clients[c].file))
      else To(s, c, Finished)
    case Complete(c) => if c !in s.clients || !s.clients[c].Stored? then s else Finish(s, c, s.clients[c])
    case Hold(c) =>
      if c !in s.clients || !s.clients[c].Completed? then s
      else
        var pc := s.clients[c];
        if Is(s, pc.file, Available) then To(s, c, Held(pc.org, pc.file, pc.version, pc.writer))
        else To(s, c, if pc.writer == ByPut then Refused(pc.file) else Finished)
    case Read(c) => if c !in s.clients || !s.clients[c].Held? then s else To(s, c, ReadActive(s, s.clients[c]))
    case Activate(c, lenient) =>
      if c !in s.clients || !s.clients[c].Seen? then s
      else if s.clients[c].current.Some? && HeldByAnother(s, c, s.clients[c].current.value) then s
      else Activation(s, c, s.clients[c], lenient)
    case Remove(c, fails) =>
      if c !in s.clients || !s.clients[c].Refused? then s
      else if fails then To(s, c, Leaked(s.clients[c].file))
      else To(Doom(s, s.clients[c].file), c, if s.clients[c].file in s.files then Purging(s.clients[c].file) else Finished)
    case CommitDelete(c, lenient) =>
      if c !in s.clients || !s.clients[c].Reading? || s.clients[c].current.None? then s
      else if HeldByAnother(s, c, s.clients[c].current.value) then s
      else Deletion(s, c, s.clients[c], lenient)
    case Wipe(c) =>
      if c !in s.clients || !s.clients[c].Purging? then s
      else To(s.(objects := s.objects - {s.clients[c].file}), c, Erasing(s.clients[c].file))
    case Erase(c) =>
      if c !in s.clients || !s.clients[c].Erasing? then s
      else
        var f := s.clients[c].file;
        To(if Is(s, f, Doomed) && f !in s.images then s.(files := s.files - {f}) else s, c, Finished)
    case FailPurge(c) =>
      if c !in s.clients || !(s.clients[c].Purging? || s.clients[c].Erasing?) then s else To(s, c, Finished)
  }

  ghost function Exec(guarded: bool, s: State, steps: seq<Step>): State
    decreases |steps|
  {
    if steps == [] then s else Exec(guarded, Next(guarded, s, steps[0]), steps[1..])
  }

  // ---- What every interleaving keeps ----

  /** An organization has one active image at most; every bound file is available with its
      object stored, and its organization stands. */
  ghost predicate Bindings(s: State) {
    && (forall f :: f in s.images ==> Is(s, f, Available) && f in s.objects && s.images[f] in s.orgs)
    && (forall f, g :: f in s.images && g in s.images && s.images[f] == s.images[g] ==> f == g)
  }

  ghost predicate Objects(s: State) {
    && (forall f :: Is(s, f, Available) ==> f in s.objects)
    && (forall c :: c in s.clients ==> ObjectPut(s, s.clients[c]))
  }

  predicate ObjectPut(s: State, pc: Client) {
    pc.Stored? && Is(s, pc.file, Pending) ==> pc.file in s.objects
  }

  /** A PUT's file is its own, a seed's fixed, and one client works on it. */
  ghost predicate Workers(clients: map<nat, Client>) {
    && (forall c :: c in clients ==> Proper(clients[c]))
    && (forall c, d :: c in clients && d in clients && c != d ==> Apart(clients[c], clients[d]))
  }

  predicate Proper(pc: Client) {
    Work(pc).Some? ==> (Seeds(pc) <==> Work(pc).value.Fixed?)
  }

  predicate Apart(a: Client, b: Client) {
    !(Seeds(a) && Seeds(b)) && (Work(a).Some? ==> Work(b) != Work(a))
  }

  /** Yet to be activated by the client that wrote it. */
  predicate Fresh(pc: Client) {
    || pc.Writing? || pc.Stored? || pc.Refused?
    || ((pc.Completed? || pc.Held? || pc.Seen?) && pc.writer != BySeed(false))
  }

  predicate Gone(s: State, f: FileId) {
    f !in s.images && (f in s.files ==> s.files[f].status == Doomed)
  }

  /** A file not yet activated is bound by nothing, a held one is available, one whose object
      is to be removed is gone, and a logo read as active, if any image binds it, is the
      organization's still, and not the file to be activated. */
  predicate Hand(s: State, pc: Client) {
    && (Fresh(pc) ==> pc.file !in s.images)
    && (Keeps(pc).Some? ==> Is(s, Keeps(pc).value, Available))
    && (pc.Purging? ==> Gone(s, pc.file))
    && (Current(pc).Some? ==>
          && (Current(pc).value in s.images ==> s.images[Current(pc).value] == pc.org)
          && (pc.Seen? ==> Current(pc).value != pc.file))
  }

  ghost predicate Hands(s: State) {
    forall c :: c in s.clients ==> Hand(s, s.clients[c])
  }

  /** A file bound by nothing whose delete has not begun. */
  predicate Live(s: State, f: FileId) {
    f in s.files && s.files[f].status != Doomed && f !in s.images
  }

  /** The file the client would bind to its organization. */
  function Binder(pc: Client): Option<FileId> {
    if pc.Writing? || pc.Stored? || pc.Completed? || pc.Held? || pc.Seen? then Some(pc.file) else None
  }

  /** Of a live file, the client a that read it as active acts for the organization the client
      b would bind it to. */
  predicate Agrees(s: State, a: Client, b: Client) {
    Current(a).Some? && Binder(b) == Current(a) && Live(s, Current(a).value) ==> a.org == b.org
  }

  ghost predicate Readers(s: State) {
    forall c, d :: c in s.clients && d in s.clients ==> Agrees(s, s.clients[c], s.clients[d])
  }

  /** A file that is available and bound by nothing has a client that answers for it: the one that
      stored it. */
  ghost predicate Answered(s: State) {
    forall f: FileId :: Is(s, f, Available) && f !in s.images ==> exists c :: c in s.clients && AnswersFor(s.clients[c], f)
  }

  predicate AnswersFor(pc: Client, f: FileId) {
    || ((pc.Completed? || pc.Held? || pc.Seen?) && pc.file == f && pc.writer != BySeed(false))
    || ((pc.Refused? || pc.Leaked?) && pc.file == f)
  }

  // ---- Replaying the logo events ----

  /** What a consumer holds: each organization's active logo. A deletion of another logo than
      the one held changes nothing. */
  function Apply(copy: map<Id, FileId>, e: Event): map<Id, FileId> {
    match e
    case LogoUploaded(f, org, _) => copy[org := f]
    case LogoDeleted(f, org, _) => if org in copy && copy[org] == f then copy - {org} else copy
    case StateReset(_) => map[]
    case _ => copy
  }

  function Replay(log: seq<Event>): map<Id, FileId> {
    if log == [] then map[] else Apply(Replay(log[..|log| - 1]), log[|log| - 1])
  }

  lemma ReplayNext(log: seq<Event>, e: Event)
    ensures Replay(log + [e]) == Apply(Replay(log), e)
  {
    assert (log + [e])[..|log|] == log;
  }

  ghost predicate Shows(images: map<FileId, Id>, copy: map<Id, FileId>) {
    && (forall org :: org in copy ==> copy[org] in images && images[copy[org]] == org)
    && (forall f :: f in images ==> images[f] in copy && copy[images[f]] == f)
  }

  ghost predicate Core(s: State) {
    Bindings(s) && Objects(s) && Workers(s.clients) && Hands(s) && Readers(s)
  }

  ghost predicate Inv(s: State) {
    Core(s) && Answered(s) && Shows(s.images, Replay(s.log))
  }

  // ---- A client's move ----

  /** What a client may come to, the tables as they stand. */
  ghost predicate Fits(s: State, c: nat, pc: Client) {
    && Proper(pc) && (forall d :: d in s.clients && d != c ==> Apart(pc, s.clients[d])) && ObjectPut(s, pc) && Hand(s, pc)
    && Joins(s, c, pc)
  }

  /** The client reads no live file, and those that read the one it would bind agree. */
  ghost predicate Joins(s: State, c: nat, pc: Client) {
    && (Current(pc).Some? ==> !Live(s, Current(pc).value))
    && (forall d :: d in s.clients && d != c ==> Agrees(s, s.clients[d], pc))
  }

  lemma JoinedReaders(s: State, c: nat, pc: Client)
    requires Readers(s) && Joins(s, c, pc)
    ensures Readers(To(s, c, pc))
  {
    hide Current, Binder;
    var s' := To(s, c, pc);
    forall d, e | d in s'.clients && e in s'.clients
      ensures Agrees(s', s'.clients[d], s'.clients[e])
    {
      if d != c && e != c {
        assert Agrees(s, s.clients[d], s.clients[e]);
      } else if d != c {
        assert Agrees(s, s.clients[d], pc);
      }
    }
  }

  lemma MoveKeepsCore(s: State, c: nat, pc: Client)
    requires Core(s) && Fits(s, c, pc)
    ensures Core(To(s, c, pc))
  {
    JoinedReaders(s, c, pc);
    hide Proper, Hand, ObjectPut, Seeds, Work, Readers, Joins;
    var s' := To(s, c, pc);
    forall d | d in s'.clients
      ensures ObjectPut(s', s'.clients[d]) && Hand(s', s'.clients[d])
    {
      SameTables(s, s', s'.clients[d]);
      assert d != c ==> ObjectPut(s, s.clients[d]) && Hand(s, s.clients[d]);
    }
  }

  lemma SameTables(s: State, s': State, pc: Client)
    requires s'.files == s.files && s'.objects == s.objects && s'.images == s.images
    ensures ObjectPut(s', pc) == ObjectPut(s, pc) && Hand(s', pc) == Hand(s, pc)
  {
  }

  /** A client's next place on the file it works on already, or on none. */
  lemma SameWork(s: State, c: nat, pc: Client)
    requires Workers(s.clients) && c in s.clients && (Seeds(pc) ==> Seeds(s.clients[c]))
    requires Work(pc).Some? ==> Work(pc) == Work(s.clients[c]) && (Seeds(pc) <==> Seeds(s.clients[c]))
    ensures Proper(pc) && forall d :: d in s.clients && d != c ==> Apart(pc, s.clients[d])
  {
    hide Seeds, Work;
    assert Proper(s.clients[c]);
    forall d | d in s.clients && d != c
      ensures Apart(pc, s.clients[d])
    {
      assert Apart(s.clients[c], s.clients[d]);
    }
  }

  lemma SameBinder(s: State, c: nat, pc: Client)
    requires Readers(s) && c in s.clients && (Current(pc).Some? ==> !Live(s, Current(pc).value))
    requires Binder(pc).Some? ==> Binder(pc) == Binder(s.clients[c]) && pc.org == s.clients[c].org
    ensures Joins(s, c, pc)
  {
    hide Current, Binder, Live;
    forall d | d in s.clients && d != c
      ensures Agrees(s, s.clients[d], pc)
    {
      assert Agrees(s, s.clients[d], s.clients[c]);
    }
  }

  lemma Idle(s: State, c: nat, pc: Client)
    requires Work(pc).None? && !Seeds(pc) && (Current(pc).Some? ==> !Live(s, Current(pc).value))
    ensures Proper(pc) && (forall d :: d in s.clients && d != c ==> Apart(pc, s.clients[d])) && Joins(s, c, pc)
  {
  }

  // ---- The tables' moves ----

  /** Every client fits the changed tables as it fit them before. */
  ghost predicate Carries(s: State, s': State) {
    && s'.clients == s.clients
    && forall c :: c in s.clients ==> ObjectPut(s', s.clients[c]) && Hand(s', s.clients[c])
  }

  /** No file read as active becomes live while some client would bind it. */
  ghost predicate Withers(s: State, s': State) {
    forall f :: Live(s', f) && !Live(s, f) ==> forall d :: d in s.clients ==> Binder(s.clients[d]) != Some(f)
  }

  lemma WitheredReaders(s: State, s': State)
    requires Readers(s) && Withers(s, s') && s'.clients == s.clients
    ensures Readers(s')
  {
    hide Current, Binder, Live;
    forall c, d | c in s'.clients && d in s'.clients
      ensures Agrees(s', s'.clients[c], s'.clients[d])
    {
      assert Agrees(s, s.clients[c], s.clients[d]);
    }
  }

  lemma CarriedCore(s: State, s': State)
    requires Core(s) && Carries(s, s') && Bindings(s') && (forall f :: Is(s', f, Available) ==> f in s'.objects) && Withers(s, s')
    ensures Core(s')
  {
    WitheredReaders(s, s');
    hide Proper, Apart, Hand, ObjectPut, Readers, Withers;
  }

  lemma InsertKeepsCore(s: State, f: FileId)
    requires Core(s) && f !in s.files
    requires forall c :: c in s.clients ==> s.clients[c] != Purging(f) && Work(s.clients[c]) != Some(f)
    ensures Core(s.(files := s.files[f := LogoFile(Pending, 1)]))
  {
    hide Workers, Seeds;
    var s' := s.(files := s.files[f := LogoFile(Pending, 1)]);
    forall c | c in s.clients
      ensures ObjectPut(s', s.clients[c]) && Hand(s', s.clients[c])
    {
      assert Work(s.clients[c]) != Some(f) && Hand(s, s.clients[c]) && ObjectPut(s, s.clients[c]);
    }
    CarriedCore(s, s');
  }

  lemma PutKeepsCore(s: State, f: FileId)
    requires Core(s)
    ensures Core(s.(objects := s.objects + {f}))
  {
    hide Workers, Seeds;
    var s' := s.(objects := s.objects + {f});
    forall c | c in s.clients
      ensures ObjectPut(s', s.clients[c]) && Hand(s', s.clients[c])
    {
      assert Hand(s, s.clients[c]) && ObjectPut(s, s.clients[c]);
    }
    CarriedCore(s, s');
  }

  lemma DoomPendingKeepsCore(s: State, f: FileId)
    requires Core(s) && Is(s, f, Pending)
    ensures var s' := s.(files := s.files[f := LogoFile(Doomed, s.files[f].version)]); Core(s') && Gone(s', f)
  {
    hide Workers, Seeds;
    var s' := s.(files := s.files[f := LogoFile(Doomed, s.files[f].version)]);
    forall c | c in s.clients
      ensures ObjectPut(s', s.clients[c]) && Hand(s', s.clients[c])
    {
      assert Hand(s, s.clients[c]) && ObjectPut(s, s.clients[c]);
    }
    CarriedCore(s, s');
  }

  lemma AvailableKeepsCore(s: State, f: FileId, v: nat)
    requires Core(s) && Is(s, f, Pending) && f in s.objects
    ensures Core(s.(files := s.files[f := LogoFile(Available, v)]))
  {
    hide Workers, Seeds;
    var s' := s.(files := s.files[f := LogoFile(Available, v)]);
    forall c | c in s.clients
      ensures ObjectPut(s', s.clients[c]) && Hand(s', s.clients[c])
    {
      assert Hand(s, s.clients[c]) && ObjectPut(s, s.clients[c]);
    }
    CarriedCore(s, s');
  }

  predicate HeldByAny(s: State, f: FileId) {
    exists c :: c in s.clients && Keeps(s.clients[c]) == Some(f)
  }

  lemma ReleaseKeepsCore(s: State, f: FileId)
    requires Core(s) && !HeldByAny(s, f)
    ensures var s' := Doom(s.(images := s.images - {f}), f); Core(s') && Gone(s', f)
  {
    hide Workers, Seeds;
    var s' := Doom(s.(images := s.images - {f}), f);
    forall c | c in s.clients
      ensures ObjectPut(s', s.clients[c]) && Hand(s', s.clients[c])
    {
      assert Hand(s, s.clients[c]) && ObjectPut(s, s.clients[c]) && Keeps(s.clients[c]) != Some(f);
    }
    CarriedCore(s, s');
  }

  lemma WipeKeepsCore(s: State, f: FileId)
    requires Core(s) && Gone(s, f)
    ensures Core(s.(objects := s.objects - {f}))
  {
    hide Workers, Seeds;
    var s' := s.(objects := s.objects - {f});
    forall c | c in s.clients
      ensures ObjectPut(s', s.clients[c]) && Hand(s', s.clients[c])
    {
      assert Hand(s, s.clients[c]) && ObjectPut(s, s.clients[c]);
    }
    CarriedCore(s, s');
  }

  lemma EraseKeepsCore(s: State, f: FileId)
    requires Core(s) && Is(s, f, Doomed) && f !in s.images
    ensures Core(s.(files := s.files - {f}))
  {
    hide Workers, Seeds;
    var s' := s.(files := s.files - {f});
    forall c | c in s.clients
      ensures ObjectPut(s', s.clients[c]) && Hand(s', s.clients[c])
    {
      assert Hand(s, s.clients[c]) && ObjectPut(s, s.clients[c]);
    }
    CarriedCore(s, s');
  }

  lemma OrganizationsKeepCore(s: State, orgs: set<Id>)
    requires Core(s) && forall f :: f in s.images ==> s.images[f] in orgs
    ensures Core(s.(orgs := orgs))
  {
    hide Workers, Seeds;
    var s' := s.(orgs := orgs);
    forall c | c in s.clients
      ensures ObjectPut(s', s.clients[c]) && Hand(s', s.clients[c])
    {
      assert Hand(s, s.clients[c]) && ObjectPut(s, s.clients[c]);
    }
    CarriedCore(s, s');
  }

  /** The bind of a file no client is yet to activate. */
  lemma AttachKeepsCore(s: State, f: FileId, org: Id)
    requires Core(s) && Is(s, f, Available) && f !in s.images && org in s.orgs && !Bound(s.images, org)
    requires forall c :: c in s.clients ==> Work(s.clients[c]) != Some(f)
    requires forall c :: c in s.clients && Current(s.clients[c]) == Some(f) ==> s.clients[c].org == org
    ensures Core(s.(images := s.images[f := org]))
  {
    hide Workers, Seeds;
    var s' := s.(images := s.images[f := org]);
    forall c | c in s.clients
      ensures ObjectPut(s', s.clients[c]) && Hand(s', s.clients[c])
    {
      assert Hand(s, s.clients[c]) && ObjectPut(s, s.clients[c]) && Work(s.clients[c]) != Some(f);
      assert Current(s.clients[c]) == Some(f) ==> s.clients[c].org == org;
    }
    CarriedCore(s, s');
  }

  lemma LogAside(s: State, log: seq<Event>)
    requires Core(s)
    ensures Core(s.(log := log))
  {
    hide Workers, Seeds, Work;
    var s' := s.(log := log);
    forall c | c in s.clients
      ensures ObjectPut(s', s.clients[c]) && Hand(s', s.clients[c])
    {
      assert Hand(s, s.clients[c]) && ObjectPut(s, s.clients[c]);
    }
    CarriedCore(s, s');
  }

  // ---- Each step ----

  lemma HandOf(s: State, c: nat)
    requires Core(s) && c in s.clients
    ensures Hand(s, s.clients[c]) && ObjectPut(s, s.clients[c]) && Proper(s.clients[c])
  {
  }

  lemma UnmentionedApart(s: State, c: nat, org: Id, f: FileId)
    requires Core(s) && c !in s.clients && !Mentioned(s, f) && f.Minted?
    ensures var pc := Writing(org, f, false);
            && Proper(pc) && (forall d :: d in s.clients && d != c ==> Apart(pc, s.clients[d]))
    ensures forall d :: d in s.clients ==> Work(s.clients[d]) != Some(f) && s.clients[d] != Purging(f) && Current(s.clients[d]) != Some(f)
  {
    forall d | d in s.clients
      ensures Apart(Writing(org, f, false), s.clients[d])
      ensures Work(s.clients[d]) != Some(f) && s.clients[d] != Purging(f) && Current(s.clients[d]) != Some(f)
    {
      assert !Mentions(s.clients[d], f);
    }
  }

  lemma SeedApart(s: State, c: nat, pc: Client)
    requires Core(s) && c !in s.clients && !Seeding(s) && (pc.Writing? || pc.Completed?) && Seeds(pc) && pc.file.Fixed?
    ensures Proper(pc) && (forall d :: d in s.clients && d != c ==> Apart(pc, s.clients[d]))
    ensures forall d :: d in s.clients ==> Work(s.clients[d]) != Some(pc.file)
  {
    forall d | d in s.clients
      ensures Apart(pc, s.clients[d]) && Work(s.clients[d]) != Some(pc.file)
    {
      assert Proper(s.clients[d]) && !Seeds(s.clients[d]);
    }
  }

  /** What nothing endangers: every client that read the file as active acts for the
      organization, unless an image binds it. */
  lemma SafeReaders(s: State, org: Id, f: FileId)
    requires !Endangered(s, org, f) && f !in s.images
    ensures forall d :: d in s.clients && Current(s.clients[d]) == Some(f) ==> s.clients[d].org == org
    ensures f !in s.files ==> forall d :: d in s.clients ==> s.clients[d] != Purging(f)
  {
    forall d | d in s.clients && Current(s.clients[d]) == Some(f)
      ensures s.clients[d].org == org
    {
      assert ReadBy(s.clients[d], f);
    }
  }

  lemma JoinsBinder(s: State, c: nat, org: Id, pc: Client)
    requires Binder(pc).Some? && pc.org == org && Current(pc).None?
    requires pc.file !in s.images ==> forall d :: d in s.clients && Current(s.clients[d]) == Some(pc.file) ==> s.clients[d].org == org
    ensures Joins(s, c, pc)
  {
  }

  lemma BeginKeepsCore(s: State, c: nat, org: Id, f: FileId, seed: bool)
    requires Core(s) && c !in s.clients && f !in s.files
    requires forall d :: d in s.clients ==> Work(s.clients[d]) != Some(f) && s.clients[d] != Purging(f)
    requires forall d :: d in s.clients && Current(s.clients[d]) == Some(f) ==> s.clients[d].org == org
    requires Proper(Writing(org, f, seed)) && forall d :: d in s.clients && d != c ==> Apart(Writing(org, f, seed), s.clients[d])
    ensures Core(To(s.(files := s.files[f := LogoFile(Pending, 1)]), c, Writing(org, f, seed)))
  {
    InsertKeepsCore(s, f);
    assert f !in s.images;
    hide Core, Proper, Apart;
    var s' := s.(files := s.files[f := LogoFile(Pending, 1)]);
    JoinsBinder(s', c, org, Writing(org, f, seed));
    MoveKeepsCore(s', c, Writing(org, f, seed));
  }

  lemma PutBeginKeepsCore(s: State, c: nat, org: Id, f: FileId)
    requires Core(s) && c !in s.clients && f.Minted? && f !in s.files && !Mentioned(s, f)
    ensures Core(To(s.(files := s.files[f := LogoFile(Pending, 1)]), c, Writing(org, f, false)))
  {
    hide Core, Proper, Apart, Work, Current, Mentioned;
    UnmentionedApart(s, c, org, f);
    BeginKeepsCore(s, c, org, f, false);
  }

  lemma SeedMoveKeepsCore(s: State, c: nat, org: Id, pc: Client)
    requires Core(s) && c !in s.clients && !Seeding(s) && (pc.Writing? || pc.Completed?) && Seeds(pc) && pc.file.Fixed?
    requires pc.org == org && Hand(s, pc) && ObjectPut(s, pc) && !Endangered(s, org, pc.file)
    ensures Core(To(s, c, pc))
  {
    hide Core, Proper, Apart, Seeding, Endangered, Hand, ObjectPut, Seeds;
    SeedApart(s, c, pc);
    if pc.file !in s.images {
      SafeReaders(s, org, pc.file);
    }
    JoinsBinder(s, c, org, pc);
    MoveKeepsCore(s, c, pc);
  }

  lemma SeedKeepsCore(s: State, c: nat, org: Id, f: FileId)
    requires Core(s) && c !in s.clients && f.Fixed? && !Seeding(s)
    ensures Core(StartSeed(true, s, c, org, f))
  {
    hide Seeding, Endangered;
    if !Endangered(s, org, f) {
      if f !in s.files {
        assert f !in s.images;
        hide Core, Proper, Apart;
        SafeReaders(s, org, f);
        SeedApart(s, c, Writing(org, f, true));
        BeginKeepsCore(s, c, org, f, true);
      } else if s.files[f].status == Pending {
        assert f !in s.images;
        hide Core;
        SeedMoveKeepsCore(s, c, org, Writing(org, f, true));
      } else if s.files[f].status == Available {
        hide Core;
        SeedMoveKeepsCore(s, c, org, Completed(org, f, s.files[f].version, BySeed(false)));
      }
    }
  }

  lemma IdleMoveKeepsCore(s: State, c: nat, pc: Client)
    requires Core(s) && Work(pc).None? && !Seeds(pc) && Hand(s, pc) && ObjectPut(s, pc)
    requires Current(pc).Some? ==> !Live(s, Current(pc).value)
    ensures Core(To(s, c, pc))
  {
    Idle(s, c, pc);
    hide Core, Hand, ObjectPut, Proper, Apart, Joins;
    MoveKeepsCore(s, c, pc);
  }

  lemma WorkMoveKeepsCore(s: State, c: nat, pc: Client)
    requires Core(s) && c in s.clients && (Seeds(pc) ==> Seeds(s.clients[c])) && Hand(s, pc) && ObjectPut(s, pc)
    requires Work(pc).Some? ==> Work(pc) == Work(s.clients[c]) && (Seeds(pc) <==> Seeds(s.clients[c]))
    requires Current(pc).Some? ==> !Live(s, Current(pc).value)
    requires Binder(pc).Some? ==> Binder(pc) == Binder(s.clients[c]) && pc.org == s.clients[c].org
    ensures Core(To(s, c, pc))
  {
    SameWork(s, c, pc);
    SameBinder(s, c, pc);
    hide Core, Hand, ObjectPut, Proper, Apart, Work, Seeds, Joins, Current, Binder;
    MoveKeepsCore(s, c, pc);
  }

  lemma PutObjectKeepsCore(s: State, c: nat)
    requires Core(s) && c in s.clients && s.clients[c].Writing?
    ensures Core(Next(true, s, PutObject(c)))
  {
    HandOf(s, c);
    var pc := s.clients[c];
    PutKeepsCore(s, pc.file);
    hide Core, Proper;
    WorkMoveKeepsCore(s.(objects := s.objects + {pc.file}), c, Stored(pc.org, pc.file, pc.seed));
  }

  lemma FailPutKeepsCore(s: State, c: nat)
    requires Core(s) && c in s.clients && (s.clients[c].Writing? || s.clients[c].Stored?)
    ensures Core(Next(true, s, FailPut(c)))
  {
    hide Core;
    var f := s.clients[c].file;
    if Is(s, f, Pending) {
      DoomPendingKeepsCore(s, f);
      IdleMoveKeepsCore(s.(files := s.files[f := LogoFile(Doomed, s.files[f].version)]), c, Purging(f));
    } else {
      IdleMoveKeepsCore(s, c, Finished);
    }
  }

  lemma CompletePending(s: State, c: nat, pc: Client)
    requires Core(s) && c in s.clients && s.clients[c] == pc && pc.Stored? && Is(s, pc.file, Pending)
    ensures Core(Finish(s, c, pc))
  {
    hide Core;
    HandOf(s, c);
    var f := pc.file;
    var v := s.files[f].version + 1;
    AvailableKeepsCore(s, f, v);
    WorkMoveKeepsCore(s.(files := s.files[f := LogoFile(Available, v)]), c,
                      Completed(pc.org, f, v, if pc.seed then BySeed(true) else ByPut));
  }

  lemma CompleteFound(s: State, c: nat, pc: Client)
    requires Core(s) && c in s.clients && s.clients[c] == pc && pc.Stored? && Is(s, pc.file, Available) && pc.seed
    ensures Core(To(s, c, Completed(pc.org, pc.file, s.files[pc.file].version, BySeed(false))))
  {
    hide Core;
    HandOf(s, c);
    WorkMoveKeepsCore(s, c, Completed(pc.org, pc.file, s.files[pc.file].version, BySeed(false)));
  }

  lemma CompleteKeepsCore(s: State, c: nat)
    requires Core(s) && c in s.clients && s.clients[c].Stored?
    ensures Core(Finish(s, c, s.clients[c]))
  {
    hide Core;
    var pc := s.clients[c];
    if Is(s, pc.file, Pending) {
      CompletePending(s, c, pc);
    } else if Is(s, pc.file, Available) {
      if pc.seed {
        CompleteFound(s, c, pc);
      }
    } else {
      HandOf(s, c);
      IdleMoveKeepsCore(s, c, Purging(pc.file));
    }
  }

  lemma HoldKeepsCore(s: State, c: nat)
    requires Core(s) && c in s.clients && s.clients[c].Completed?
    ensures Core(Next(true, s, Hold(c)))
  {
    hide Core;
    HandOf(s, c);
    var pc := s.clients[c];
    if Is(s, pc.file, Available) {
      WorkMoveKeepsCore(s, c, Held(pc.org, pc.file, pc.version, pc.writer));
    } else if pc.writer == ByPut {
      WorkMoveKeepsCore(s, c, Refused(pc.file));
    } else {
      IdleMoveKeepsCore(s, c, Finished);
    }
  }

  lemma ReadKeepsCore(s: State, c: nat)
    requires Core(s) && c in s.clients && s.clients[c].Held?
    ensures Core(To(s, c, ReadActive(s, s.clients[c])))
  {
    hide Core;
    HandOf(s, c);
    WorkMoveKeepsCore(s, c, ReadActive(s, s.clients[c]));
  }

  lemma RejectedKeepsCore(s: State, c: nat)
    requires Core(s) && c in s.clients && s.clients[c].Seen?
    ensures Core(To(s, c, if s.clients[c].file in s.images then Finished else Rejected(s.clients[c])))
  {
    hide Core;
    HandOf(s, c);
    WorkMoveKeepsCore(s, c, if s.clients[c].file in s.images then Finished else Rejected(s.clients[c]));
  }

  lemma OnlyWorker(s: State, c: nat, f: FileId)
    requires Core(s) && c in s.clients && Work(s.clients[c]) == Some(f)
    ensures forall d :: d in s.clients && d != c ==> Work(s.clients[d]) != Some(f)
  {
    forall d | d in s.clients && d != c
      ensures Work(s.clients[d]) != Some(f)
    {
      assert Apart(s.clients[c], s.clients[d]);
    }
  }

  /** Whoever read the live file the client would bind acts for the client's organization. */
  lemma OneOrganization(s: State, c: nat, f: FileId)
    requires Core(s) && c in s.clients && s.clients[c].Seen? && s.clients[c].file == f && Live(s, f)
    ensures forall d :: d in s.clients && Current(s.clients[d]) == Some(f) ==> s.clients[d].org == s.clients[c].org
  {
    forall d | d in s.clients && Current(s.clients[d]) == Some(f)
      ensures s.clients[d].org == s.clients[c].org
    {
      assert Agrees(s, s.clients[d], s.clients[c]);
    }
  }

  lemma NotHeld(s: State, c: nat, f: FileId)
    requires c in s.clients && !HeldByAnother(s, c, f) && Keeps(s.clients[c]) != Some(f)
    ensures !HeldByAny(s, f)
  {
  }

  /** The release inside an activation or a delete. */
  lemma ReleasedKeepsCore(s: State, c: nat)
    requires Core(s) && c in s.clients && (s.clients[c].Seen? || s.clients[c].Reading?) && s.clients[c].current.Some?
    requires !HeldByAnother(s, c, s.clients[c].current.value)
    requires s.clients[c].Seen? ==> s.clients[c].file !in s.images
    ensures var r := Released(s, s.clients[c].current);
            Core(r) && Gone(r, s.clients[c].current.value) && (s.clients[c].Seen? ==> s.clients[c].file != s.clients[c].current.value)
  {
    HandOf(s, c);
    hide Core, HeldByAnother, HeldByAny;
    NotHeld(s, c, s.clients[c].current.value);
    ReleaseKeepsCore(s, s.clients[c].current.value);
  }

  lemma ActivationKeepsCore(s: State, c: nat, lenient: bool)
    requires Core(s) && c in s.clients && s.clients[c].Seen?
    requires s.clients[c].current.Some? ==> !HeldByAnother(s, c, s.clients[c].current.value)
    ensures Core(Activation(s, c, s.clients[c], lenient))
  {
    hide Core, HeldByAnother, Bound, Hand;
    var pc := s.clients[c];
    var r := Released(s, pc.current);
    if pc.org !in s.orgs || !Releases(s, pc.current, lenient) || Bound(r.images, pc.org) || pc.file in s.images {
      RejectedKeepsCore(s, c);
    } else {
      HeldIsAvailable(s, c);
      OnlyWorker(s, c, pc.file);
      OneOrganization(s, c, pc.file);
      if pc.current.Some? {
        ReleasedKeepsCore(s, c);
      }
      var pc' := if pc.current.Some? then Purging(pc.current.value) else Finished;
      IdleHand(r, pc');
      IdleMoveKeepsCore(r, c, pc');
      AttachKeepsCore(To(r, c, pc'), pc.file, pc.org);
      LogAside(To(r, c, pc').(images := r.images[pc.file := pc.org]), s.log + [LogoUploaded(pc.file, pc.org, pc.version)]);
    }
  }

  lemma HeldIsAvailable(s: State, c: nat)
    requires Core(s) && c in s.clients && s.clients[c].Seen?
    ensures Is(s, s.clients[c].file, Available)
  {
    HandOf(s, c);
  }

  lemma IdleHand(s: State, pc: Client)
    requires pc.Finished? || (pc.Purging? && Gone(s, pc.file))
    ensures Hand(s, pc) && ObjectPut(s, pc) && Work(pc).None? && !Seeds(pc)
  {
  }

  lemma DeletionKeepsCore(s: State, c: nat, lenient: bool)
    requires Core(s) && c in s.clients && s.clients[c].Reading? && s.clients[c].current.Some?
    requires !HeldByAnother(s, c, s.clients[c].current.value)
    ensures Core(Deletion(s, c, s.clients[c], lenient))
  {
    hide Core, HeldByAnother, Hand;
    var pc := s.clients[c];
    if !Releases(s, pc.current, lenient) {
      IdleHand(s, Finished);
      IdleMoveKeepsCore(s, c, Finished);
    } else {
      var f := pc.current.value;
      ReleasedKeepsCore(s, c);
      var r := Released(s, pc.current);
      IdleHand(r, Purging(f));
      IdleMoveKeepsCore(r, c, Purging(f));
      LogAside(To(r, c, Purging(f)), s.log + [LogoDeleted(f, pc.org, if f in r.files then r.files[f].version else 0)]);
    }
  }

  lemma RemoveKeepsCore(s: State, c: nat, fails: bool)
    requires Core(s) && c in s.clients && s.clients[c].Refused?
    ensures Core(Next(true, s, Remove(c, fails)))
  {
    hide Core;
    var f := s.clients[c].file;
    HandOf(s, c);
    OnlyWorker(s, c, f);
    if fails {
      IdleMoveKeepsCore(s, c, Leaked(f));
    } else {
      ReleaseKeepsCore(s, f);
      assert s.images - {f} == s.images;
      IdleMoveKeepsCore(Doom(s, f), c, if f in s.files then Purging(f) else Finished);
    }
  }

  lemma PurgeKeepsCore(s: State, step: Step)
    requires Core(s) && (step.Wipe? || step.Erase? || step.FailPurge?) && step.c in s.clients
    requires Removal(s.clients[step.c]).Some?
    ensures Core(Next(true, s, step))
  {
    var c := step.c;
    var f := s.clients[c].file;
    HandOf(s, c);
    hide Core;
    if step.Wipe? && s.clients[c].Purging? {
      WipeKeepsCore(s, f);
      IdleMoveKeepsCore(s.(objects := s.objects - {f}), c, Erasing(f));
    } else if step.Erase? && s.clients[c].Erasing? && Is(s, f, Doomed) {
      EraseKeepsCore(s, f);
      IdleMoveKeepsCore(s.(files := s.files - {f}), c, Finished);
    } else if !step.Wipe? && (step.Erase? ==> s.clients[c].Erasing?) {
      IdleMoveKeepsCore(s, c, Finished);
    }
  }

  /** Every step keeps the bindings, the objects, and what each client has a hand on. */
  lemma NextKeepsCore(s: State, step: Step)
    requires Core(s)
    ensures Core(Next(true, s, step))
  {
    hide Hand, Mentioned, Seeding, HeldByAnother, StartSeed, Finish, ReadActive, Activation, Deletion;
    match step
    case CreateOrganization(org) => BoundStand(s); hide Core; OrganizationsKeepCore(s, s.orgs + {org});
    case DeleteOrganization(org) =>
      BoundStand(s);
      hide Core;
      if !Bound(s.images, org) {
        OrganizationsKeepCore(s, s.orgs - {org});
      }
    case BeginPut(c, org, f) =>
      hide Core;
      if !(c in s.clients || org !in s.orgs || !f.Minted? || f in s.files || Mentioned(s, f)) {
        PutBeginKeepsCore(s, c, org, f);
      }
    case BeginSeed(c, org, id) =>
      hide Core;
      if !(c in s.clients || org !in s.orgs || Seeding(s)) {
        SeedKeepsCore(s, c, org, Fixed(id));
      }
    case SweepMark(f) =>
      hide Core;
      if Is(s, f, Pending) {
        DoomPendingKeepsCore(s, f);
      }
    case SweepClaim(c, f) =>
      if c !in s.clients && Is(s, f, Doomed) {
        DoomedIsGone(s, f);
        hide Core;
        IdleHand(s, Purging(f));
        IdleMoveKeepsCore(s, c, Purging(f));
      }
    case BeginDelete(c, org) =>
      hide Core;
      if c !in s.clients && ActiveLogo(s, org).Some? {
        ReadingFits(s, org);
        IdleMoveKeepsCore(s, c, Reading(org, ActiveLogo(s, org)));
      }
    case PutObject(c) => hide Core; if c in s.clients && s.clients[c].Writing? { PutObjectKeepsCore(s, c); }
    case FailPut(c) => hide Core; if c in s.clients && (s.clients[c].Writing? || s.clients[c].Stored?) { FailPutKeepsCore(s, c); }
    case Complete(c) => hide Core; if c in s.clients && s.clients[c].Stored? { CompleteKeepsCore(s, c); }
    case Hold(c) => hide Core; if c in s.clients && s.clients[c].Completed? { HoldKeepsCore(s, c); }
    case Read(c) => hide Core; if c in s.clients && s.clients[c].Held? { ReadKeepsCore(s, c); }
    case Activate(c, lenient) =>
      hide Core;
      if c in s.clients && s.clients[c].Seen? && (s.clients[c].current.Some? ==> !HeldByAnother(s, c, s.clients[c].current.value)) {
        ActivationKeepsCore(s, c, lenient);
      }
    case Remove(c, fails) => hide Core; if c in s.clients && s.clients[c].Refused? { RemoveKeepsCore(s, c, fails); }
    case CommitDelete(c, lenient) =>
      hide Core;
      if c in s.clients && s.clients[c].Reading? && s.clients[c].current.Some? && !HeldByAnother(s, c, s.clients[c].current.value) {
        DeletionKeepsCore(s, c, lenient);
      }
    case Wipe(c) => hide Core; if c in s.clients && Removal(s.clients[c]).Some? { PurgeKeepsCore(s, step); }
    case Erase(c) => hide Core; if c in s.clients && Removal(s.clients[c]).Some? { PurgeKeepsCore(s, step); }
    case FailPurge(c) => hide Core; if c in s.clients && Removal(s.clients[c]).Some? { PurgeKeepsCore(s, step); }
  }

  lemma BoundStand(s: State)
    requires Core(s)
    ensures forall f :: f in s.images ==> s.images[f] in s.orgs
  {
  }

  lemma DoomedIsGone(s: State, f: FileId)
    requires Core(s) && Is(s, f, Doomed)
    ensures Gone(s, f)
  {
  }

  lemma ReadingFits(s: State, org: Id)
    ensures var pc := Reading(org, ActiveLogo(s, org)); Work(pc).None? && !Seeds(pc) && Hand(s, pc) && ObjectPut(s, pc)
    ensures ActiveLogo(s, org).Some? ==> !Live(s, ActiveLogo(s, org).value)
  {
  }
}
