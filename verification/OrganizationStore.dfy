/** The organization store's commands and its seed, on the table, the minted ids, and the
    outbox they change. Each command reads and writes its own transaction's rows and
    commits the row's event with them, or changes nothing. */
module OrganizationStore {
  import opened Forest
  import opened Events
  import opened Organizations

  datatype Identity = Identity(id: Id, version: nat)
  datatype Result<T> = Success(value: T) | Failure(refusal: Refusal)

  /** A named state's organization: its parent by code, the empty code being the root. */
  datatype SeedRow = SeedRow(parent: string, code: string, name: string)

  datatype SeedError = ParentNotSeeded(code: string) | CodeReused(code: string) | RowRefused(refusal: Refusal)

  /** What a command leaves: what Run says of the table, with its event the one event more,
      or nothing changed. */
  ghost predicate Ran(before: Table, log: seq<Event>, c: Command, after: Table, log': seq<Event>,
          refusal: Option<Refusal>) {
    match Run(before, c)
    case Committed(t, e) => after == t && log' == log + [e] && refusal == None
    case Refused(r) => after == before && log' == log && refusal == Some(r)
  }

  // ---- What a seed file declares ----

  ghost predicate CodeBefore(rows: seq<SeedRow>, i: nat, code: string)
    requires i <= |rows|
  {
    exists j :: 0 <= j < i && rows[j].code == code
  }

  /** A row names a parent before it, a code no earlier row has, and fields the schema
      accepts. */
  ghost predicate WellFormedRow(rows: seq<SeedRow>, i: nat)
    requires i < |rows|
  {
    && ValidCode(rows[i].code) && rows[i].name != ""
    && (rows[i].parent != "" ==> CodeBefore(rows, i, rows[i].parent))
    && !CodeBefore(rows, i, rows[i].code)
  }

  /** Why the seed refuses the row. */
  ghost function DefectOf(rows: seq<SeedRow>, i: nat): SeedError
    requires i < |rows|
  {
    if rows[i].parent != "" && !CodeBefore(rows, i, rows[i].parent) then ParentNotSeeded(rows[i].code)
    else if CodeBefore(rows, i, rows[i].code) then CodeReused(rows[i].code)
    else RowRefused(CheckViolation)
  }

  /** The first row of the file that is not well formed. */
  ghost predicate FirstDefect(rows: seq<SeedRow>, i: nat, err: SeedError) {
    && i < |rows| && !WellFormedRow(rows, i) && err == DefectOf(rows, i)
    && forall j :: 0 <= j < i ==> WellFormedRow(rows, j)
  }

  ghost predicate WellFormed(rows: seq<SeedRow>) {
    forall i :: 0 <= i < |rows| ==> WellFormedRow(rows, i)
  }

  ghost predicate Resolves(t: Table, row: SeedRow, ids: map<string, Id>) {
    && row.code in ids && (row.parent != "" ==> row.parent in ids)
    && ids[row.code] in t
    && t[ids[row.code]].code == row.code
    && t[ids[row.code]].parent == if row.parent == "" then TOP else ids[row.parent]
  }

  /** Every row of the file stands under its declared parent chain. */
  ghost predicate Declares(t: Table, rows: seq<SeedRow>, ids: map<string, Id>) {
    forall i :: 0 <= i < |rows| ==> Resolves(t, rows[i], ids)
  }

  ghost predicate Seeded(t: Table, rows: seq<SeedRow>) {
    exists ids :: Declares(t, rows, ids)
  }

  ghost predicate SiblingStands(t: Table, parent: Id, code: string) {
    exists id :: id in t && t[id].parent == parent && t[id].code == code
  }

  /** How far a seed has come: its first i rows are well formed and stand under the ids
      their codes are keyed to. */
  ghost predicate Progress(t: Table, rows: seq<SeedRow>, i: nat, ids: map<string, Id>) {
    && i <= |rows|
    && (forall j :: 0 <= j < i ==> WellFormedRow(rows, j))
    && (forall code :: code in ids <==> CodeBefore(rows, i, code))
    && (forall code :: code in ids ==> ids[code] in t)
    && Declares(t, rows[..i], ids)
  }

  lemma ProgressStart(t: Table, rows: seq<SeedRow>)
    ensures Progress(t, rows, 0, map[])
  {
  }

  lemma ProgressEnd(t: Table, rows: seq<SeedRow>, ids: map<string, Id>)
    requires Progress(t, rows, |rows|, ids)
    ensures WellFormed(rows) && Seeded(t, rows)
  {
    assert rows[..|rows|] == rows;
  }

  /** The seed refuses its next row exactly when the row is not well formed. */
  lemma ProgressRow(t: Table, rows: seq<SeedRow>, i: nat, ids: map<string, Id>)
    requires Progress(t, rows, i, ids) && i < |rows|
    ensures WellFormedRow(rows, i) <==> (
              && ValidCode(rows[i].code) && rows[i].name != ""
              && (rows[i].parent != "" ==> rows[i].parent in ids) && rows[i].code !in ids)
    ensures rows[i].parent in ids ==> ids[rows[i].parent] in t
    ensures !WellFormedRow(rows, i) ==> !WellFormed(rows)
  {
  }

  lemma DefectHere(t: Table, rows: seq<SeedRow>, i: nat, ids: map<string, Id>)
    requires Progress(t, rows, i, ids) && i < |rows|
    ensures !WellFormedRow(rows, i) ==>
              FirstDefect(rows, i, if rows[i].parent != "" && rows[i].parent !in ids then ParentNotSeeded(rows[i].code)
                                   else if rows[i].code in ids then CodeReused(rows[i].code)
                                   else RowRefused(CheckViolation))
  {
  }

  lemma ProgressNext(before: Table, after: Table, rows: seq<SeedRow>, ids: map<string, Id>, i: nat, id: Id)
    requires Progress(before, rows, i, ids) && i < |rows| && WellFormedRow(rows, i)
    requires forall x :: x in before ==> x in after && after[x] == before[x]
    requires id in after && after[id].code == rows[i].code
    requires rows[i].parent != "" ==> rows[i].parent in ids
    requires after[id].parent == if rows[i].parent == "" then TOP else ids[rows[i].parent]
    ensures Progress(after, rows, i + 1, ids[rows[i].code := id])
  {
    hide ValidCode;
    var ids' := ids[rows[i].code := id];
    forall code
      ensures code in ids' <==> CodeBefore(rows, i + 1, code)
    {
      if CodeBefore(rows, i + 1, code) && code != rows[i].code {
        assert CodeBefore(rows, i, code);
      }
      if code in ids {
        var j :| 0 <= j < i && rows[j].code == code;
      }
    }
    var done := rows[..i + 1];
    forall k | 0 <= k < |done|
      ensures Resolves(after, done[k], ids')
    {
      if k < i {
        assert rows[..i][k] == rows[k] && WellFormedRow(rows, k);
        assert Resolves(before, rows[k], ids);
        assert CodeBefore(rows, i, rows[k].code);
        assert rows[i].code !in ids;
      }
    }
  }

  /** What the events of a seed alone build on a table. */
  function ReplayOn(t: Table, events: seq<Event>): Table {
    if events == [] then t else Apply(ReplayOn(t, events[..|events| - 1]), events[|events| - 1])
  }

  /** A table a seed has grown: every row there before as it was, one row more for each
      event, each event a creation, and the events building the table. */
  ghost predicate Grown(before: Table, after: Table, events: seq<Event>) {
    && (forall id :: id in before ==> id in after && after[id] == before[id])
    && |after| == |before| + |events|
    && (forall e :: e in events ==> e.OrganizationCreated?)
    && ReplayOn(before, events) == after
  }

  lemma GrownNone(t: Table)
    ensures Grown(t, t, [])
  {
  }

  lemma GrownNext(before: Table, t: Table, events: seq<Event>, id: Id, row: Organization)
    requires Grown(before, t, events) && id !in t
    ensures Grown(before, t[id := row], events + [OrganizationCreated(Stored(t[id := row], id))])
  {
    var e := OrganizationCreated(Stored(t[id := row], id));
    assert (events + [e])[..|events|] == events;
    assert t[id := row].Keys == t.Keys + {id};
  }

  /** The event creates a row of the file, under its code and name. */
  ghost predicate FromFile(rows: seq<SeedRow>, e: Event) {
    && e.OrganizationCreated? && e.org.version == 1
    && exists j :: 0 <= j < |rows| && rows[j].code == e.org.code && rows[j].name == e.org.name && (rows[j].parent == "" <==> e.org.parent == TOP)
  }

  lemma TopIsNone(t: Table)
    requires Sound(t)
    ensures TOP !in t
  {
    assert TOP !in ParentsOf(t);
  }

  lemma FromRow(rows: seq<SeedRow>, i: nat, id: Id, parent: Id)
    requires i < |rows| && (rows[i].parent == "" <==> parent == TOP)
    ensures FromFile(rows, OrganizationCreated(OrganizationData(id, parent, rows[i].code, rows[i].name, 1)))
  {
  }

  class OrganizationStore {
    var organizations: Table
    var minted: set<Id>
    var outbox: seq<Event>

    ghost predicate Valid()
      reads this
    {
      Sound(organizations) && organizations.Keys <= minted && TOP in minted
    }

    constructor ()
      ensures Valid() && organizations == map[] && outbox == []
    {
      organizations, minted, outbox := map[], {TOP}, [];
      new;
      assert ParentsOf(map[]) == map[];
    }

    /** The id column's default: an id never minted before, in a table or out of it. */
    method Mint() returns (id: Id)
      requires Valid()
      modifies this`minted
      ensures Valid() && id !in old(minted) && minted == old(minted) + {id}
    {
      BeyondMax(minted);
      id :| id !in minted;
      minted := minted + {id};
    }

    /** The row's data as the transaction holds it after its change. */
    method RaiseStored(tx: Table, id: Id) returns (data: OrganizationData)
      requires id in tx
      ensures data == Stored(tx, id)
    {
      data := OrganizationData(id, tx[id].parent, tx[id].code, tx[id].name, tx[id].version);
    }

    method Create(parent: Id, code: string, name: string) returns (id: Id, r: Result<Identity>)
      requires Valid()
      modifies this
      ensures Valid() && id !in old(minted) && minted == old(minted) + {id}
      ensures Ran(old(organizations), old(outbox), Command.Create(id, parent, code, name), organizations, outbox,
                  if r.Success? then None else Some(r.refusal))
      ensures r.Success? ==> r.value == Identity(id, 1)
      ensures r.Success? <==>
                && ValidCode(code) && name != "" && (parent == TOP || parent in old(organizations))
                && forall x :: x in old(organizations) && old(organizations)[x].parent == parent ==> old(organizations)[x].code != code
      ensures r.Success? ==>
                && organizations == old(organizations)[id := Organization(parent, code, name, 1)]
                && outbox == old(outbox) + [OrganizationCreated(OrganizationData(id, parent, code, name, 1))]
      ensures r.Failure? ==> organizations == old(organizations) && outbox == old(outbox)
    {
      hide ValidCode, Sound;
      id := Mint();
      CreateAnswers(organizations, id, parent, code, name);
      var row := Organization(parent, code, name, 1);
      var violation := Violation(organizations, id, row);
      if violation.Some? {
        return id, Failure(violation.value);
      }
      RunKeepsSound(organizations, Command.Create(id, parent, code, name));
      var tx := organizations[id := row];
      var data := RaiseStored(tx, id);
      organizations, outbox := tx, outbox + [OrganizationCreated(data)];
      r := Success(Identity(id, row.version));
    }

    method Edit(id: Id, version: nat, code: string, name: string) returns (r: Result<Identity>)
      requires Valid()
      modifies this
      ensures Valid() && minted == old(minted)
      ensures Ran(old(organizations), old(outbox), Command.Edit(id, version, code, name), organizations, outbox,
                  if r.Success? then None else Some(r.refusal))
      ensures r.Success? ==> r.value == Identity(id, version + 1)
      ensures r.Success? <==>
                && id in old(organizations) && old(organizations)[id].version == version && ValidCode(code) && name != ""
                && forall x :: x in old(organizations) && x != id && old(organizations)[x].parent == old(organizations)[id].parent ==>
                     old(organizations)[x].code != code
      ensures r.Success? ==>
                var parent := old(organizations)[id].parent;
                && organizations == old(organizations)[id := Organization(parent, code, name, version + 1)]
                && outbox == old(outbox) + [OrganizationEdited(OrganizationData(id, parent, code, name, version + 1))]
      ensures r.Failure? ==> organizations == old(organizations) && outbox == old(outbox)
    {
      EditAnswers(organizations, id, version, code, name);
      hide ValidCode, Sound, CodeTaken;
      var guard := Guard(organizations, id, version);
      if guard.Some? {
        return Failure(guard.value);
      }
      r := GuardedUpdate(Command.Edit(id, version, code, name), id, organizations[id].(code := code, name := name), false);
    }

    /** The guarded update of a row matched at its version, and its event. */
    method GuardedUpdate(ghost c: Command, id: Id, row: Organization, transferred: bool) returns (r: Result<Identity>)
      requires Valid() && id in organizations && !c.Create?
      requires Run(organizations, c) == Update(organizations, id, row, transferred)
      modifies this
      ensures Valid() && minted == old(minted)
      ensures Ran(old(organizations), old(outbox), c, organizations, outbox, if r.Success? then None else Some(r.refusal))
      ensures r.Success? ==> r.value == Identity(id, old(organizations)[id].version + 1)
    {
      var violation := Violation(organizations, id, row);
      if violation.Some? {
        return Failure(violation.value);
      }
      RunKeepsSound(organizations, c);
      var v := organizations[id].version + 1;
      var tx := organizations[id := row.(version := v)];
      var data := RaiseStored(tx, id);
      var event := if transferred then OrganizationTransferred(data) else OrganizationEdited(data);
      organizations, outbox := tx, outbox + [event];
      r := Success(Identity(id, v));
    }

    /** Moves the organization under a new parent, TOP being the root, unless its ancestor
        chain says the parent is in the organization's own subtree. */
    method Transfer(id: Id, version: nat, parent: Id) returns (r: Result<Identity>)
      requires Valid()
      modifies this
      ensures Valid() && minted == old(minted)
      ensures Ran(old(organizations), old(outbox), Command.Transfer(id, version, parent), organizations, outbox,
                  if r.Success? then None else Some(r.refusal))
      ensures r.Success? ==> r.value == Identity(id, version + 1)
      ensures r.Success? <==>
                && id in old(organizations) && old(organizations)[id].version == version
                && (parent == TOP || (parent in old(organizations) && !Within(ParentsOf(old(organizations)), parent, id)))
                && forall x :: x in old(organizations) && x != id && old(organizations)[x].parent == parent ==>
                     old(organizations)[x].code != old(organizations)[id].code
      ensures r.Success? ==>
                var row := old(organizations)[id];
                && organizations == old(organizations)[id := Organization(parent, row.code, row.name, version + 1)]
                && outbox == old(outbox) + [OrganizationTransferred(OrganizationData(id, parent, row.code, row.name, version + 1))]
      ensures r.Failure? ==> organizations == old(organizations) && outbox == old(outbox)
    {
      TransferAnswers(organizations, id, version, parent);
      hide ValidCode, CodeTaken, Within;
      if parent != TOP {
        var n := InSubtree(ParentsOf(organizations), id, parent);
        if n {
          return Failure(Cycle);
        }
      }
      var guard := Guard(organizations, id, version);
      if guard.Some? {
        return Failure(guard.value);
      }
      r := GuardedUpdate(Command.Transfer(id, version, parent), id, organizations[id].(parent := parent), true);
    }

    /** Removes the organization at version; a child's foreign key, or another table's,
        refuses it. */
    method Delete(id: Id, version: nat, referenced: bool) returns (r: Result<()>)
      requires Valid()
      modifies this
      ensures Valid() && minted == old(minted)
      ensures Ran(old(organizations), old(outbox), Command.Delete(id, version, referenced), organizations, outbox,
                  if r.Success? then None else Some(r.refusal))
      ensures r.Success? <==>
                && id in old(organizations) && old(organizations)[id].version == version && !referenced
                && forall x :: x in old(organizations) ==> old(organizations)[x].parent != id
      ensures r.Success? ==> organizations == old(organizations) - {id} && outbox == old(outbox) + [OrganizationDeleted(id, version)]
      ensures r.Failure? ==> organizations == old(organizations) && outbox == old(outbox)
    {
      hide Sound;
      var guard := Guard(organizations, id, version);
      if guard.Some? {
        return Failure(guard.value);
      }
      if HasChild(organizations, id) || referenced {
        return Failure(Referenced);
      }
      RunKeepsSound(organizations, Command.Delete(id, version, referenced));
      organizations, outbox := organizations - {id}, outbox + [OrganizationDeleted(id, version)];
      r := Success(());
    }

    // ---- The seed ----

    /** The sibling with the code under the parent, if there is one. */
    method FindSeeded(parent: Id, code: string) returns (found: Option<Id>)
      ensures found.Some? ==> found.value in organizations
      ensures found.Some? ==> organizations[found.value].parent == parent && organizations[found.value].code == code
      ensures found.None? ==> !SiblingStands(organizations, parent, code)
    {
      if id :| id in organizations && organizations[id].parent == parent && organizations[id].code == code {
        return Some(id);
      }
      return None;
    }

    /** Seeds one organization or finds the one already there: an insert raises its event,
        a row found raises nothing. */
    method SeedOne(parent: Id, o: SeedRow) returns (id: Id, inserted: bool, refusal: Option<Refusal>)
      requires Valid() && (parent == TOP || parent in organizations)
      modifies this
      ensures Valid() && old(minted) <= minted
      ensures refusal == if ValidCode(o.code) && o.name != "" then None else Some(CheckViolation)
      ensures refusal.None? ==> id in organizations && organizations[id].parent == parent && organizations[id].code == o.code
      ensures !inserted ==> organizations == old(organizations) && outbox == old(outbox)
      ensures inserted ==> refusal.None? && id !in old(minted)
      ensures inserted ==> organizations == old(organizations)[id := Organization(parent, o.code, o.name, 1)]
      ensures inserted ==> outbox == old(outbox) + [OrganizationCreated(OrganizationData(id, parent, o.code, o.name, 1))]
      ensures refusal.None? ==> (inserted <==> !SiblingStands(old(organizations), parent, o.code))
      ensures inserted ==> !SiblingStands(old(organizations), parent, o.code)
    {
      inserted, id := false, TOP;
      if !ValidCode(o.code) || o.name == "" {
        return TOP, false, Some(CheckViolation);
      }
      var found := FindSeeded(parent, o.code);
      if found.Some? {
        return found.value, false, None;
      }
      id := Mint();
      var row := Organization(parent, o.code, o.name, 1);
      RunKeepsSound(organizations, Command.Create(id, parent, o.code, o.name));
      var tx := organizations[id := row];
      var data := RaiseStored(tx, id);
      organizations, outbox := tx, outbox + [OrganizationCreated(data)];
      return id, true, None;
    }

    /** Inserts the file's tree in file order, each parent before its children, resolving
        codes to ids as it goes, in the caller's transaction. */
    method Apply(rows: seq<SeedRow>) returns (inserted: nat, err: Option<SeedError>)
      requires Valid()
      modifies this
      ensures Valid()
      ensures err.None? <==> WellFormed(rows)
      ensures err.Some? ==> exists i: nat :: FirstDefect(rows, i, err.value)
      ensures err.None? ==> Seeded(organizations, rows)
      ensures old(outbox) <= outbox && inserted == |outbox| - |old(outbox)|
      ensures Grown(old(organizations), organizations, outbox[|old(outbox)|..])
      ensures forall e :: e in outbox[|old(outbox)|..] ==> FromFile(rows, e)
      ensures Seeded(old(organizations), rows) ==> inserted == 0
    {
      hide Progress, WellFormedRow, WellFormed, Seeded, Grown, ValidCode, Constrained, IsForest, SiblingStands, FirstDefect, FromFile;
      var ids: map<string, Id> := map[];
      inserted, err := 0, None;
      var i := 0;
      ghost var events: seq<Event> := [];
      GrownNone(organizations);
      ProgressStart(organizations, rows);
      assert old(outbox) + [] == old(outbox);
      while i < |rows|
        invariant 0 <= i <= |rows| && Valid()
        invariant Progress(organizations, rows, i, ids)
        invariant outbox == old(outbox) + events && inserted == |events|
        invariant Grown(old(organizations), organizations, events) && forall e :: e in events ==> FromFile(rows, e)
        invariant Seeded(old(organizations), rows) ==> inserted == 0 && organizations == old(organizations)
      {
        var o := rows[i];
        TopIsNone(organizations);
        DefectHere(organizations, rows, i, ids);
        ProgressRow(organizations, rows, i, ids);
        var parent := TOP;
        if o.parent != "" {
          if o.parent !in ids {
            err := Some(ParentNotSeeded(o.code));
            break;
          }
          parent := ids[o.parent];
        }
        if o.code in ids {
          err := Some(CodeReused(o.code));
          break;
        }
        ghost var before := organizations;
        var id, ok, refusal := SeedOne(parent, o);
        if refusal.Some? {
          err := Some(RowRefused(refusal.value));
          break;
        }
        if Seeded(old(organizations), rows) {
          StandsAlready(before, rows, ids, i);
        }
        ProgressNext(before, organizations, rows, ids, i, id);
        ids := ids[o.code := id];
        if ok {
          inserted := inserted + 1;
          GrownNext(old(organizations), before, events, id, Organization(parent, o.code, o.name, 1));
          events := events + [OrganizationCreated(Stored(organizations, id))];
          FromRow(rows, i, id, parent);
        }
        i := i + 1;
      }
      assert outbox[|old(outbox)|..] == events;
      if err.None? {
        ProgressEnd(organizations, rows, ids);
      }
    }

    /** The seed's row transaction: a failure rolls every row back with its event. */
    method Seed(rows: seq<SeedRow>) returns (inserted: nat, err: Option<SeedError>)
      requires Valid()
      modifies this
      ensures Valid()
      ensures err.None? <==> WellFormed(rows)
      ensures err.Some? ==> exists i: nat :: FirstDefect(rows, i, err.value)
      ensures err.Some? ==> organizations == old(organizations) && outbox == old(outbox)
      ensures err.None? ==> Seeded(organizations, rows)
      ensures err.None? ==> old(outbox) <= outbox && inserted == |outbox| - |old(outbox)|
      ensures err.None? ==> Grown(old(organizations), organizations, outbox[|old(outbox)|..])
      ensures err.None? ==> forall e :: e in outbox[|old(outbox)|..] ==> FromFile(rows, e)
      ensures err.None? && Seeded(old(organizations), rows) ==> inserted == 0 && organizations == old(organizations)
    {
      var rows0, outbox0, minted0 := organizations, outbox, minted;
      inserted, err := Apply(rows);
      if err.Some? {
        minted := minted + minted0;
        organizations, outbox := rows0, outbox0;
      }
    }
  }

  /** A second run over the same file inserts nothing and emits nothing. */
  method SeedTwice(s: OrganizationStore, rows: seq<SeedRow>) returns (first: nat, again: nat, err: Option<SeedError>)
    requires s.Valid()
    modifies s
    ensures err.None? <==> WellFormed(rows)
    ensures err.None? ==> again == 0 && |s.outbox| == |old(s.outbox)| + first && |s.organizations| == |old(s.organizations)| + first
  {
    hide Seeded, WellFormed;
    again := 0;
    first, err := s.Seed(rows);
    if err.None? {
      again, err := s.Seed(rows);
    }
  }

  /** A seeded table holds the next row under the id its parent resolved to. */
  lemma StandsAlready(t: Table, rows: seq<SeedRow>, ids: map<string, Id>, i: nat)
    requires Constrained(t) && i < |rows| && Seeded(t, rows) && Progress(t, rows, i, ids)
    requires rows[i].parent != "" ==> rows[i].parent in ids
    ensures SiblingStands(t, if rows[i].parent == "" then TOP else ids[rows[i].parent], rows[i].code)
  {
    var all :| Declares(t, rows, all);
    assert Resolves(t, rows[i], all);
    if rows[i].parent != "" {
      var j :| 0 <= j < i && rows[j].code == rows[i].parent;
      SameResolution(t, rows, ids, all, i, j);
    }
    var id := all[rows[i].code];
    assert id in t;
  }

  /** Sibling codes are unique, so two resolutions of one well-formed file agree. */
  lemma {:induction false} SameResolution(t: Table, rows: seq<SeedRow>, a: map<string, Id>, b: map<string, Id>,
          i: nat, j: nat)
    requires Constrained(t) && j < i && Progress(t, rows, i, a) && Declares(t, rows, b)
    ensures rows[j].code in a && rows[j].code in b && a[rows[j].code] == b[rows[j].code]
    decreases j
  {
    hide ValidCode;
    assert rows[..i][j] == rows[j];
    assert Resolves(t, rows[j], a) && Resolves(t, rows[j], b);
    assert WellFormedRow(rows, j);
    if rows[j].parent != "" {
      var k :| 0 <= k < j && rows[k].code == rows[j].parent;
      SameResolution(t, rows, a, b, i, k);
    }
  }
}
