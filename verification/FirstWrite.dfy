/** Concurrent first writes of one organization: each reads the owner row on the pool, and
    finding none runs the root's transaction, the lookup by name, the insert, the bind, and
    the commit as steps of their own, with any other write between them. A unique index makes
    an insert wait for an uncommitted one of the same key and refuses it after a committed
    one; the loser reads the root the winner bound. Between any two steps the root may be
    deleted, or marked with its branch and then swept. */
module FirstWrite {
  import opened Forest
  import opened Events

  datatype Write =
    | Started
    | Unrooted                          // the pool read found no owner row
    | Looked(found: Option<Id>)         // the lookup by name, in the transaction
    | Inserted(id: Id)                  // the directory inserted, not yet committed
    | Owned(id: Id, created: bool)      // the owner row inserted, not yet committed
    | Lost                              // a unique violation rolled the transaction back
    | Rooted(id: Id)                    // the root's id is known
    | Failed
    | Done(id: Id)                      // the write's own event committed

  /** What has committed, the top-level directory of the organization's name, whether a mark
      has left it deleting, and its owner row; the writes in flight, and the events. */
  datatype State = State(dir: Option<Id>, deleting: bool, owner: Option<Id>, writes: map<nat, Write>, log: seq<Event>)

  const IDLE := State(None, false, None, map[], [])

  datatype Step =
    | Start(w: nat)
    | Read(w: nat)
    | Lookup(w: nat)
    | Insert(w: nat, id: Id)
    | Bind(w: nat)
    | Commit(w: nat)
    | Abort(w: nat)
    | Reread(w: nat)
    | Emit(w: nat, child: Id, name: string, raced: bool)
    | DeleteRoot(version: nat, lenient: bool)
    | MarkRoot(version: nat)
    | SweepRoot

  function RootData(org: Id, id: Id): DirectoryData { DirectoryData(id, org, None, "/", 1) }

  /** Holds the name's index entry uncommitted. */
  predicate Naming(w: Write) { w.Inserted? || (w.Owned? && w.created) }

  predicate NoOther(s: State, w: nat, holds: Write -> bool) {
    forall v :: v in s.writes && v != w ==> !holds(s.writes[v])
  }

  function To(s: State, w: nat, pc: Write): State {
    s.(writes := s.writes[w := pc])
  }

  /** The root's row gone, and its owner row with it. */
  function Gone(s: State): State {
    s.(dir := None, deleting := false, owner := None)
  }

  /** One step; a step not enabled, a wait among them, changes nothing. */
  function Next(org: Id, s: State, step: Step): State {
    match step
    case Start(w) => if w in s.writes then s else To(s, w, Started)
    case DeleteRoot(version, lenient) =>
      if s.dir.None? || (s.deleting && !lenient) then s
      else Gone(s).(log := s.log + [DirectoryDeleted(s.dir.value, org, version)])
    case MarkRoot(version) =>
      if s.dir.None? || s.deleting then s
      else s.(deleting := true, log := s.log + [DirectoryDeleted(s.dir.value, org, version)])
    case SweepRoot => if s.dir.Some? && s.deleting then Gone(s) else s
    case Read(w) =>
      if !At(s, w, Started) then s else To(s, w, if s.owner.Some? then Rooted(s.owner.value) else Unrooted)
    case Lookup(w) =>
      if !At(s, w, Unrooted) then s else To(s, w, if s.dir.Some? && s.deleting then Failed else Looked(s.dir))
    case Insert(w, id) =>
      if !At(s, w, Looked(None)) || !NoOther(s, w, Naming) then s
      else To(s, w, if s.dir.Some? then Lost else Inserted(id))
    case Bind(w) =>
      if w !in s.writes || !Binding(s.writes[w]) || !NoOther(s, w, (v: Write) => v.Owned?) then s
      else To(s, w, Bound(s, s.writes[w]))
    case Commit(w) =>
      if w !in s.writes || !s.writes[w].Owned? then s
      else
        var pc := s.writes[w];
        To(s, w, Rooted(pc.id)).(owner := Some(pc.id), dir := if pc.created then Some(pc.id) else s.dir,
                                 log := if pc.created then s.log + [DirectoryCreated(RootData(org, pc.id))] else s.log)
    case Abort(w) =>
      if w in s.writes && (s.writes[w].Looked? || s.writes[w].Inserted? || s.writes[w].Owned?) then To(s, w, Failed) else s
    case Reread(w) =>
      if !At(s, w, Lost) then s else To(s, w, if s.owner.Some? then Rooted(s.owner.value) else Failed)
    case Emit(w, child, name, raced) =>
      if w !in s.writes || !s.writes[w].Rooted? then s
      else if s.owner != Some(s.writes[w].id) || (s.deleting && !raced) then To(s, w, Failed)
      else
        var root := s.writes[w].id;
        To(s, w, Done(root)).(log := s.log + [DirectoryCreated(DirectoryData(child, org, Some(root), name, 1))])
  }

  predicate At(s: State, w: nat, pc: Write) {
    w in s.writes && s.writes[w] == pc
  }

  /** Has its directory, and has yet to write the owner row. */
  predicate Binding(w: Write) { w.Inserted? || (w.Looked? && w.found.Some?) }

  /** The bind: refused where an owner row has committed, and where the directory found has
      gone since. */
  function Bound(s: State, w: Write): Write
    requires Binding(w)
  {
    if s.owner.Some? then Lost
    else if w.Inserted? then Owned(w.id, true)
    else if s.dir == w.found then Owned(w.found.value, false)
    else Failed
  }

  function Exec(org: Id, s: State, steps: seq<Step>): State
    decreases |steps|
  {
    if steps == [] then s else Exec(org, Next(org, s, steps[0]), steps[1..])
  }

  // ---- What the events say of the root ----

  predicate RootCreated(e: Event) { e.DirectoryCreated? && e.dir.parent.None? }

  /** The root the events leave standing. */
  function RootAfter(log: seq<Event>): Option<Id> {
    if log == [] then None
    else
      var e := log[|log| - 1];
      if RootCreated(e) then Some(e.dir.id)
      else if e.DirectoryDeleted? then None
      else RootAfter(log[..|log| - 1])
  }

  /** The root created last, deleted since or not. */
  function LastRoot(log: seq<Event>): Option<Id> {
    if log == [] then None
    else if RootCreated(log[|log| - 1]) then Some(log[|log| - 1].dir.id)
    else LastRoot(log[..|log| - 1])
  }

  /** A root is created only where none stands; a write's own event, and a deletion's, follow
      the creation of their root with no other's between. */
  predicate Ordered(log: seq<Event>) {
    log == [] ||
    (var before, e := log[..|log| - 1], log[|log| - 1];
     && Ordered(before)
     && (RootCreated(e) ==> RootAfter(before).None?)
     && (e.DirectoryCreated? && e.dir.parent.Some? ==> LastRoot(before) == e.dir.parent)
     && (e.DirectoryDeleted? ==> LastRoot(before) == Some(e.dirId)))
  }

  function Creations(log: seq<Event>): nat {
    if log == [] then 0 else Creations(log[..|log| - 1]) + if RootCreated(log[|log| - 1]) then 1 else 0
  }

  function Deletions(log: seq<Event>): nat {
    if log == [] then 0 else Deletions(log[..|log| - 1]) + if log[|log| - 1].DirectoryDeleted? then 1 else 0
  }

  lemma LogNext(log: seq<Event>, e: Event)
    requires Ordered(log)
    requires RootCreated(e) ==> RootAfter(log).None?
    requires e.DirectoryCreated? && e.dir.parent.Some? ==> LastRoot(log) == e.dir.parent
    requires e.DirectoryDeleted? ==> LastRoot(log) == Some(e.dirId)
    ensures Ordered(log + [e])
    ensures RootAfter(log + [e]) == if RootCreated(e) then Some(e.dir.id) else if e.DirectoryDeleted? then None else RootAfter(log)
    ensures LastRoot(log + [e]) == if RootCreated(e) then Some(e.dir.id) else LastRoot(log)
    ensures Creations(log + [e]) == Creations(log) + if RootCreated(e) then 1 else 0
    ensures Deletions(log + [e]) == Deletions(log) + if e.DirectoryDeleted? then 1 else 0
  {
    assert (log + [e])[..|log|] == log;
  }

  // ---- The invariant ----

  /** The committed directory and the owner row are one root; an uncommitted insert of the
      name or of the owner row is alone, and no root has committed beside it. */
  ghost predicate Locked(s: State) {
    && s.dir == s.owner && (s.deleting ==> s.dir.Some?)
    && (forall w :: w in s.writes && s.writes[w].Owned? ==> s.writes[w].created)
    && (forall w :: w in s.writes && Naming(s.writes[w]) ==> s.dir.None?)
    && (forall v, w :: v in s.writes && w in s.writes && Naming(s.writes[v]) && Naming(s.writes[w]) ==> v == w)
  }

  /** The root that stands, one deleting already no longer. */
  function Standing(s: State): Option<Id> {
    if s.deleting then None else s.owner
  }

  /** The events leave the same root, each created where none stood. */
  ghost predicate Told(s: State) {
    && RootAfter(s.log) == Standing(s) && Ordered(s.log) && (s.owner.Some? ==> LastRoot(s.log) == s.owner)
    && (Deletions(s.log) == 0 ==> !s.deleting && Creations(s.log) == if s.owner.Some? then 1 else 0)
  }

  predicate Given(w: Write) { w.Rooted? || w.Done? }

  /** Where no delete committed, every caller given a root was given the one that stands. */
  ghost predicate OneRoot(s: State) {
    Deletions(s.log) == 0 ==> forall w :: w in s.writes && Given(s.writes[w]) ==> s.owner == Some(s.writes[w].id)
  }

  ghost predicate Inv(s: State) {
    Locked(s) && Told(s) && OneRoot(s)
  }

  lemma NextKeepsLocked(org: Id, s: State, step: Step)
    requires Locked(s)
    ensures Locked(Next(org, s, step))
  {
  }

  /** The one event a step commits, if it commits one. */
  lemma StepEvent(org: Id, s: State, step: Step)
    requires Locked(s)
    ensures var s' := Next(org, s, step);
            || (s'.log == s.log && Standing(s') == Standing(s)
                && (s'.owner == s.owner || (s.deleting && s'.owner.None?)) && (s'.deleting ==> s.deleting))
            || (s.dir.Some? && step.DeleteRoot? && s'.log == s.log + [DirectoryDeleted(s.dir.value, org, step.version)] && s'.owner.None?)
            || (Standing(s).Some? && step.MarkRoot? && s'.log == s.log + [DirectoryDeleted(s.dir.value, org, step.version)]
                && s'.owner == s.owner && s'.deleting)
            || (s.owner.None? && s'.owner.Some? && !s'.deleting && s'.log == s.log + [DirectoryCreated(RootData(org, s'.owner.value))])
            || (s.owner.Some? && s'.owner == s.owner && s'.deleting == s.deleting && step.Emit?
                && s'.log == s.log + [DirectoryCreated(DirectoryData(step.child, org, s.owner, step.name, 1))])
  {
  }

  lemma NextKeepsTold(org: Id, s: State, step: Step)
    requires Locked(s) && Told(s)
    ensures Told(Next(org, s, step)) && Deletions(Next(org, s, step).log) >= Deletions(s.log)
  {
    hide Ordered, RootAfter, LastRoot, Creations, Deletions, Next;
    StepEvent(org, s, step);
    var s' := Next(org, s, step);
    if s'.log != s.log {
      LogNext(s.log, s'.log[|s.log|]);
    }
  }

  lemma NextKeepsOneRoot(org: Id, s: State, step: Step)
    requires Locked(s) && OneRoot(s) && Told(s) && Deletions(Next(org, s, step).log) >= Deletions(s.log)
    ensures OneRoot(Next(org, s, step))
  {
    hide Ordered, RootAfter, LastRoot, Creations, Deletions;
    if step.DeleteRoot? && s.dir.Some? {
      LogNext(s.log, DirectoryDeleted(s.dir.value, org, step.version));
    }
  }

  lemma NextKeepsInv(org: Id, s: State, step: Step)
    requires Inv(s)
    ensures Inv(Next(org, s, step))
  {
    hide Locked, Told, OneRoot, Next;
    NextKeepsLocked(org, s, step);
    NextKeepsTold(org, s, step);
    NextKeepsOneRoot(org, s, step);
  }

  lemma {:induction false} RunsKeepInv(org: Id, s: State, steps: seq<Step>)
    requires Inv(s)
    ensures Inv(Exec(org, s, steps))
    decreases |steps|
  {
    hide Inv, Next;
    if steps != [] {
      NextKeepsInv(org, s, steps[0]);
      RunsKeepInv(org, Next(org, s, steps[0]), steps[1..]);
    }
  }

  /** Over every interleaving of any number of first writes with deletes, marks, and sweeps of
      the root: one root at most is bound, and the events leave it exactly while no mark has
      taken it; they create a root only where none stands, and a write's own event only after
      its root's; and without a delete every caller is given the one root, whose creation
      committed once. */
  lemma AllRuns(org: Id, steps: seq<Step>)
    ensures var s := Exec(org, IDLE, steps);
            && s.dir == s.owner && RootAfter(s.log) == (if s.deleting then None else s.owner) && Ordered(s.log)
            && (Deletions(s.log) == 0 ==>
                  && Creations(s.log) == (if s.owner.Some? then 1 else 0)
                  && forall w :: w in s.writes && (s.writes[w].Rooted? || s.writes[w].Done?) ==> s.owner == Some(s.writes[w].id))
  {
    hide Next;
    RunsKeepInv(org, IDLE, steps);
  }

  // ---- One first write with no other in flight ----

  lemma ExecTwo(org: Id, s: State, a: Step, b: Step)
    ensures Exec(org, s, [a, b]) == Next(org, Next(org, s, a), b)
  {
    hide Next;
    assert [a, b][1..] == [b] && [b][1..] == [];
    assert Exec(org, Next(org, s, a), [b]) == Exec(org, Next(org, Next(org, s, a), b), []);
  }

  lemma {:induction false} ExecAppend(org: Id, s: State, a: seq<Step>, b: seq<Step>)
    ensures Exec(org, s, a + b) == Exec(org, Exec(org, s, a), b)
    decreases |a|
  {
    hide Next;
    if a == [] {
      assert a + b == b;
    } else {
      assert (a + b)[1..] == a[1..] + b;
      ExecAppend(org, Next(org, s, a[0]), a[1..], b);
    }
  }

  /** Its six steps in a row are the root's whole transaction: the root found where it is bound,
      and otherwise created and bound under the id, with the one event that shows it without a
      parent and named "/". */
  lemma AloneIsWhole(org: Id, s: State, w: nat, id: Id)
    requires Locked(s) && w !in s.writes && forall v :: v in s.writes ==> !Naming(s.writes[v])
    ensures var t := Exec(org, s, [Start(w), Read(w)] + [Lookup(w), Insert(w, id)] + [Bind(w), Commit(w)]);
            && w in t.writes && t.deleting == s.deleting
            && (s.owner.Some? ==> t.owner == s.owner && t.dir == s.dir && t.log == s.log && t.writes[w] == Rooted(s.owner.value))
            && (s.owner.None? ==>
                  && t.owner == Some(id) && t.dir == Some(id) && t.writes[w] == Rooted(id)
                  && t.log == s.log + [DirectoryCreated(DirectoryData(id, org, None, "/", 1))])
  {
    ExecAppend(org, s, [Start(w), Read(w)] + [Lookup(w), Insert(w, id)], [Bind(w), Commit(w)]);
    ExecAppend(org, s, [Start(w), Read(w)], [Lookup(w), Insert(w, id)]);
    ExecTwo(org, s, Start(w), Read(w));
    var s2 := Next(org, Next(org, s, Start(w)), Read(w));
    ExecTwo(org, s2, Lookup(w), Insert(w, id));
    var s4 := Next(org, Next(org, s2, Lookup(w)), Insert(w, id));
    ExecTwo(org, s4, Bind(w), Commit(w));
    hide Exec;
    if s.owner.None? {
      OthersOwnNone(s);
      assert At(s2, w, Unrooted);
      assert At(s4, w, Inserted(id));
    }
  }

  lemma OthersOwnNone(s: State)
    requires Locked(s) && forall v :: v in s.writes ==> !Naming(s.writes[v])
    ensures forall v :: v in s.writes ==> !s.writes[v].Owned?
  {
  }
}
