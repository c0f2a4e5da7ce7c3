/** Transfers in flight at once. A transfer is three steps of one transaction, the tree's
    lock, the walk of the new parent's ancestor chain, and the guarded update, and between
    them any create, edit, or delete may commit, which takes no lock. Each statement reads
    what has committed (Postgres's read committed). With the lock, every interleaving is a
    run of whole commands; without it, two transfers make a cycle. */
module TransferProtocol {
  import opened Forest
  import opened Events
  import opened Organizations

  datatype Request = Request(id: Id, version: nat, parent: Id)
  datatype Transaction = Begun(request: Request) | Walked(request: Request)

  /** What has committed, the transfers in flight, and which of them holds the lock. */
  datatype Service = Service(core: State, inFlight: map<nat, Transaction>, holder: Option<nat>)

  datatype Step =
    | Begin(tx: nat, request: Request)
    | Walk(tx: nat)
    | Commit(tx: nat)
    | Unlocked(command: Command)

  ghost predicate InSubtreeOf(t: Table, parent: Id, id: Id) {
    parent in t && id in t && Within(ParentsOf(t), parent, id)
  }

  /** An id no transfer in flight names: the engine mints ids nobody could have named. */
  predicate Unnamed(s: Service, id: Id) {
    forall tx :: tx in s.inFlight ==> s.inFlight[tx].request.id != id && s.inFlight[tx].request.parent != id
  }

  /** The guarded update and its event, with no check of its own for a cycle. */
  ghost function Write(core: State, r: Request): State {
    if Guard(core.table, r.id, r.version).Some? then core
    else
      match Update(core.table, r.id, core.table[r.id].(parent := r.parent), true)
      case Refused(_) => core
      case Committed(t, e) => core.(table := t, log := core.log + [e])
  }

  /** A transaction's end, which releases the lock it holds. */
  function End(s: Service, tx: nat): Service {
    s.(inFlight := s.inFlight - {tx}, holder := if s.holder == Some(tx) then None else s.holder)
  }

  /** One step; one that is not enabled, a begin that must wait for the lock among them,
      leaves the service as it is. */
  ghost function Next(locking: bool, s: Service, step: Step): Service {
    match step
    case Begin(tx, request) =>
      if tx in s.inFlight || (locking && s.holder.Some?) then s
      else s.(inFlight := s.inFlight[tx := Begun(request)], holder := if locking then Some(tx) else s.holder)
    case Walk(tx) =>
      if tx !in s.inFlight || !s.inFlight[tx].Begun? then s
      else
        var r := s.inFlight[tx].request;
        if r.parent != TOP && InSubtreeOf(s.core.table, r.parent, r.id) then End(s, tx)
        else s.(inFlight := s.inFlight[tx := Walked(r)])
    case Commit(tx) =>
      if tx !in s.inFlight || !s.inFlight[tx].Walked? then s
      else End(s, tx).(core := Write(s.core, s.inFlight[tx].request))
    case Unlocked(c) =>
      if c.Transfer? || (c.Create? && !Unnamed(s, c.id)) then s
      else s.(core := Organizations.Next(s.core, c))
  }

  ghost function Exec(locking: bool, s: Service, steps: seq<Step>): Service
    decreases |steps|
  {
    if steps == [] then s else Exec(locking, Next(locking, s, steps[0]), steps[1..])
  }

  const IDLE := Service(INITIAL, map[], None)

  /** Only the lock's holder is in flight, and what a finished walk found still holds. */
  ghost predicate Inv(s: Service) {
    && Organizations.Inv(s.core)
    && (forall tx :: tx in s.inFlight ==> s.holder == Some(tx))
    && (forall tx :: tx in s.inFlight && s.inFlight[tx].Walked? ==>
          !InSubtreeOf(s.core.table, s.inFlight[tx].request.parent, s.inFlight[tx].request.id))
  }

  /** What a walk found outside the subtree no unlocked command brings into it. */
  lemma UnlockedKeepsOutside(core: State, c: Command, parent: Id, id: Id)
    requires Organizations.Inv(core) && !c.Transfer?
    requires c.Create? ==> c.id != parent && c.id != id
    requires !InSubtreeOf(core.table, parent, id)
    ensures !InSubtreeOf(Organizations.Next(core, c).table, parent, id)
  {
    hide Constrained, History, Replay;
    var t := core.table;
    var p := ParentsOf(t);
    if Organizations.Next(core, c) != core {
      match c
      case Create(x, under, code, name) => InsertKeepsOutside(t, x, Organization(under, code, name, 1), parent, id);
      case Edit(x, v, code, name) => assert ParentsOf(Organizations.Next(core, c).table) == p;
      case Delete(x, _, _) => RemoveKeepsOutside(t, x, parent, id);
    }
  }

  lemma InsertKeepsOutside(t: Table, x: Id, row: Organization, parent: Id, id: Id)
    requires IsForest(ParentsOf(t)) && x !in t && x != TOP && Violation(t, x, row).None?
    requires x != parent && x != id && !InSubtreeOf(t, parent, id)
    ensures !InSubtreeOf(t[x := row], parent, id)
  {
    hide IsForest, CodeTaken, ValidCode;
    assert ParentsOf(t[x := row]) == ParentsOf(t)[x := row.parent];
    Insert(ParentsOf(t), x, row.parent);
  }

  lemma RemoveKeepsOutside(t: Table, x: Id, parent: Id, id: Id)
    requires IsForest(ParentsOf(t)) && x in t && !HasChild(t, x) && !InSubtreeOf(t, parent, id)
    ensures !InSubtreeOf(t - {x}, parent, id)
  {
    assert ParentsOf(t - {x}) == ParentsOf(t) - {x};
    Remove(ParentsOf(t), x);
  }

  /** A locked transfer's update is a whole transfer command at the moment it commits: its
      walk's answer is still the answer. */
  lemma CommitIsTransfer(core: State, r: Request)
    requires !InSubtreeOf(core.table, r.parent, r.id)
    ensures Write(core, r) == Organizations.Next(core, Command.Transfer(r.id, r.version, r.parent))
  {
  }

  /** Every step is one whole command on what has committed, or changes nothing there. */
  lemma StepIsCommand(s: Service, step: Step)
    requires Inv(s)
    ensures Next(true, s, step).core == s.core
      || exists c :: Next(true, s, step).core == Organizations.Next(s.core, c)
  {
    if step.Commit? && step.tx in s.inFlight && s.inFlight[step.tx].Walked? {
      var r := s.inFlight[step.tx].request;
      CommitIsTransfer(s.core, r);
    }
  }

  lemma NextKeepsInv(s: Service, step: Step)
    requires Inv(s)
    ensures Inv(Next(true, s, step))
  {
    hide Write, Organizations.Next, Organizations.Inv;
    var s' := Next(true, s, step);
    StepIsCommand(s, step);
    if s'.core != s.core {
      var c :| s'.core == Organizations.Next(s.core, c);
      Organizations.NextKeepsInv(s.core, c);
    }
    if step.Unlocked? && s' != s {
      forall tx | tx in s.inFlight && s.inFlight[tx].Walked?
        ensures !InSubtreeOf(s'.core.table, s.inFlight[tx].request.parent, s.inFlight[tx].request.id)
      {
        UnlockedKeepsOutside(s.core, step.command, s.inFlight[tx].request.parent, s.inFlight[tx].request.id);
      }
    } else if step.Walk? && s' != s && step.tx in s'.inFlight {
      TopIsOutside(s.core, s.inFlight[step.tx].request.id);
    }
  }

  lemma TopIsOutside(core: State, id: Id)
    requires Organizations.Inv(core)
    ensures !InSubtreeOf(core.table, TOP, id)
  {
    assert TOP !in ParentsOf(core.table);
  }

  /** Over every interleaving of locked transfers with unlocked creates, edits, and deletes,
      what has committed keeps the organizations' invariant: the graph is a forest, so no
      cycle and every lineage walk ends, and the events replay to it in version order. */
  lemma {:induction false} LockedRunsKeepInv(s: Service, steps: seq<Step>)
    requires Inv(s)
    ensures Inv(Exec(true, s, steps))
    decreases |steps|
  {
    if steps != [] {
      NextKeepsInv(s, steps[0]);
      LockedRunsKeepInv(Next(true, s, steps[0]), steps[1..]);
    }
  }

  lemma AllLockedRuns(steps: seq<Step>)
    ensures Inv(Exec(true, IDLE, steps))
    ensures IsForest(ParentsOf(Exec(true, IDLE, steps).core.table))
  {
    InitialInv();
    LockedRunsKeepInv(IDLE, steps);
  }

  // ---- Without the lock ----

  const ALPHA := Organization(TOP, "a", "Alpha", 1)
  const BETA := Organization(TOP, "b", "Beta", 1)
  const ROOTS := map[1 := ALPHA, 2 := BETA]

  /** Two organizations created, and a transfer of each under the other: both walk, and then
      both commit. */
  const FOUND := [Unlocked(Create(1, TOP, "a", "Alpha")), Unlocked(Create(2, TOP, "b", "Beta"))]
  const CROSS := [Begin(1, Request(1, 1, 2)), Begin(2, Request(2, 1, 1)), Walk(1), Walk(2)]
  const COMMITS := [Commit(1), Commit(2)]

  /** The first update has committed, then both. */
  const FIRST := map[1 := ALPHA.(parent := 2, version := 2), 2 := BETA]
  const BOTH := map[1 := ALPHA.(parent := 2, version := 2), 2 := BETA.(parent := 1, version := 2)]

  lemma RootsApart(t: Table, a: Id, b: Id)
    requires a in t && t[a].parent == TOP && TOP !in t && a != b && b != TOP
    ensures !InSubtreeOf(t, a, b)
  {
    if InSubtreeOf(t, a, b) {
      WithinStep(ParentsOf(t), a, b);
      WithinOutside(ParentsOf(t), TOP, b);
    }
  }

  lemma Founded()
    ensures var s := Exec(false, IDLE, FOUND);
            s.core.table == ROOTS && s.core.minted == {1, 2} && s.inFlight == map[] && s.holder == None
  {
    hide IsForest, Exec;
    assert ValidCode("a") && ValidCode("b");
    hide ValidCode;
    var s1 := Next(false, IDLE, FOUND[0]);
    assert s1.core.table == map[1 := ALPHA] && s1.core.minted == {1};
    var s2 := Next(false, s1, FOUND[1]);
    assert s2.core.table == ROOTS && s2.core.minted == {1, 2};
    ExecTwo(IDLE, FOUND[0], FOUND[1]);
  }

  /** Both walks pass: neither organization is in the other's subtree. */
  lemma CrossedWalks(s: Service)
    requires s.core.table == ROOTS && s.inFlight == map[] && s.holder == None
    ensures Exec(false, s, CROSS).core == s.core
    ensures Exec(false, s, CROSS).inFlight == map[1 := Walked(Request(1, 1, 2)), 2 := Walked(Request(2, 1, 1))]
  {
    hide InSubtreeOf, Exec;
    RootsApart(ROOTS, 2, 1);
    RootsApart(ROOTS, 1, 2);
    var s2 := Next(false, Next(false, s, CROSS[0]), CROSS[1]);
    assert s2.inFlight == map[1 := Begun(Request(1, 1, 2)), 2 := Begun(Request(2, 1, 1))];
    var s3 := Next(false, s2, CROSS[2]);
    assert s3.inFlight == map[1 := Walked(Request(1, 1, 2)), 2 := Begun(Request(2, 1, 1))];
    var s4 := Next(false, s3, CROSS[3]);
    assert s4.inFlight == map[1 := Walked(Request(1, 1, 2)), 2 := Walked(Request(2, 1, 1))];
    ExecTwo(s, CROSS[0], CROSS[1]);
    ExecTwo(s2, CROSS[2], CROSS[3]);
    assert CROSS == [CROSS[0], CROSS[1]] + [CROSS[2], CROSS[3]];
    ExecAppend(s, [CROSS[0], CROSS[1]], [CROSS[2], CROSS[3]]);
  }

  lemma CrossedWrites(core: State)
    ensures core.table == ROOTS ==> Write(core, Request(1, 1, 2)).table == FIRST
    ensures core.table == FIRST ==> Write(core, Request(2, 1, 1)).table == BOTH
  {
    assert ValidCode("a") && ValidCode("b");
    hide ValidCode;
  }

  lemma CrossedCommits(s: Service)
    requires s.core.table == ROOTS && s.inFlight == map[1 := Walked(Request(1, 1, 2)), 2 := Walked(Request(2, 1, 1))]
    ensures Exec(false, s, COMMITS).core.table == BOTH
  {
    hide Write, Exec;
    var s1 := Next(false, s, COMMITS[0]);
    CrossedWrites(s.core);
    assert s1.core == Write(s.core, Request(1, 1, 2)) && s1.inFlight == map[2 := Walked(Request(2, 1, 1))];
    CrossedWrites(s1.core);
    ExecTwo(s, COMMITS[0], COMMITS[1]);
  }

  lemma BothIsACycle()
    ensures !IsForest(ParentsOf(BOTH))
  {
    var q := ParentsOf(BOTH);
    assert Up(q, 1, 2) == Up(q, 2, 1) == Up(q, 1, 0) == 1;
    if IsForest(q) {
      NoCycle(q, 1, 2);
    }
  }

  /** From an empty service: without the lock both walks pass, both updates commit, and each
      organization is the other's parent. */
  lemma WithoutLockACycle()
    ensures var t := Exec(false, IDLE, FOUND + CROSS + COMMITS).core.table;
            t.Keys == {1, 2} && t[1].parent == 2 && t[2].parent == 1 && !IsForest(ParentsOf(t))
  {
    hide IsForest, ParentsOf, Exec;
    Founded();
    var s := Exec(false, IDLE, FOUND);
    CrossedWalks(s);
    CrossedCommits(Exec(false, s, CROSS));
    ExecAppend(IDLE, FOUND, CROSS);
    ExecAppend(IDLE, FOUND + CROSS, COMMITS);
    BothIsACycle();
  }

  lemma {:induction false} ExecAppend(s: Service, a: seq<Step>, b: seq<Step>)
    ensures Exec(false, s, a + b) == Exec(false, Exec(false, s, a), b)
    decreases |a|
  {
    hide Next;
    if a == [] {
      assert a + b == b;
    } else {
      assert (a + b)[1..] == a[1..] + b;
      ExecAppend(Next(false, s, a[0]), a[1..], b);
    }
  }

  lemma ExecTwo(s: Service, a: Step, b: Step)
    ensures Exec(false, s, [a, b]) == Next(false, Next(false, s, a), b)
  {
    hide Next;
    assert [a, b][1..] == [b] && [b][1..] == [];
    assert Exec(false, Next(false, s, a), [b]) == Exec(false, Next(false, Next(false, s, a), b), []);
  }
}
