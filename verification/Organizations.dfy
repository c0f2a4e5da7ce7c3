/** The organization table, its four commands, and the event each commits in the
    transaction that makes its change true. A command runs whole or not at all; the steps
    of a transfer are interleaved in TransferProtocol. */
module Organizations {
  import opened Forest
  import opened Events
  import Strings

  /** One row; parent is TOP at a root. */
  datatype Organization = Organization(parent: Id, code: string, name: string, version: nat)
  type Table = map<Id, Organization>

  function ParentsOf(t: Table): Parents {
    map id | id in t :: t[id].parent
  }

  predicate CodeChar(c: char) { 'a' <= c <= 'z' || '0' <= c <= '9' }

  /** A hyphen stands after a letter or digit. */
  predicate CodeCharAt(code: string, i: nat)
    requires 0 < i < |code|
  {
    CodeChar(code[i]) || (code[i] == '-' && CodeChar(code[i - 1]))
  }

  /** Lowercase words joined by single hyphens. */
  predicate ValidCode(code: string) {
    && code != [] && CodeChar(code[0]) && CodeChar(code[|code| - 1])
    && forall i :: 0 < i < |code| ==> CodeCharAt(code, i)
  }

  predicate Word(w: string) {
    w != "" && forall i :: 0 <= i < |w| ==> 'a' <= w[i] <= 'z' || '0' <= w[i] <= '9'
  }

  predicate Words(parts: seq<string>) {
    forall k :: 0 <= k < |parts| ==> Word(parts[k])
  }

  predicate TailWords(parts: seq<string>) {
    forall k :: 0 < k < |parts| ==> Word(parts[k])
  }

  /** A code after its first letter or digit. */
  predicate CodeTail(code: string) {
    && (code != "" ==> (CodeChar(code[0]) || code[0] == '-') && CodeChar(code[|code| - 1]))
    && forall i :: 0 < i < |code| ==> CodeCharAt(code, i)
  }

  /** The code rule, read one character at a time, is that of words put together by hyphens. */
  lemma {:induction false} CodeIsWords(code: string)
    ensures ValidCode(code) <==> Words(Strings.Split(code, '-'))
    decreases |code|, 0
  {
    var parts := Strings.Split(code, '-');
    if code == "" || code[0] == '-' {
      assert parts[0] == "" && !Word(parts[0]);
    } else {
      TailIsWords(code[1..]);
      CodeAfterFirst(code);
      SplitWord(code);
      hide ValidCode, CodeTail, Word;
    }
  }

  /** A code's first part begins with its first character, its other parts being the rest's. */
  lemma SplitWord(code: string)
    requires code != "" && code[0] != '-'
    ensures var parts, rest := Strings.Split(code, '-'), Strings.Split(code[1..], '-');
            && |parts| == |rest| && (forall k :: 0 < k < |parts| ==> parts[k] == rest[k])
            && (Word(parts[0]) <==> CodeChar(code[0]) && (rest[0] == "" || Word(rest[0])))
  {
    var w := Strings.Split(code[1..], '-')[0];
    assert Strings.Split(code, '-')[0] == [code[0]] + w;
    WordCons(code[0], w);
    hide Word;
  }

  lemma WordCons(c: char, w: string)
    ensures Word([c] + w) <==> CodeChar(c) && (w == "" || Word(w))
  {
    var first := [c] + w;
    assert first[0] == c && forall i :: 0 <= i < |w| ==> first[i + 1] == w[i];
    assert forall i :: 0 < i < |first| ==> first[i] == w[i - 1];
  }

  lemma CodeAfterFirst(code: string)
    requires code != "" && code[0] != '-'
    ensures ValidCode(code) <==> CodeChar(code[0]) && CodeTail(code[1..])
    ensures ValidCode(code) <==> CodeTail(code)
  {
    var rest := code[1..];
    assert forall i :: 1 < i < |code| ==> CodeCharAt(code, i) == CodeCharAt(rest, i - 1);
    assert forall i :: 0 < i < |rest| ==> CodeCharAt(rest, i) == CodeCharAt(code, i + 1);
    assert |code| > 1 && CodeChar(code[0]) ==> (CodeCharAt(code, 1) <==> CodeChar(rest[0]) || rest[0] == '-');
  }

  lemma CodeAfterHyphen(code: string)
    requires code != "" && code[0] == '-'
    ensures CodeTail(code) <==> ValidCode(code[1..])
  {
    var rest := code[1..];
    assert forall i :: 1 < i < |code| ==> CodeCharAt(code, i) == CodeCharAt(rest, i - 1);
    assert forall i :: 0 < i < |rest| ==> CodeCharAt(rest, i) == CodeCharAt(code, i + 1);
    assert |code| > 1 ==> (CodeCharAt(code, 1) <==> CodeChar(rest[0]));
  }

  lemma ShiftedWords(parts: seq<string>, rest: seq<string>)
    requires parts == [[]] + rest
    ensures Words(rest) <==> TailWords(parts)
  {
    hide Word;
    assert forall k :: 0 < k < |parts| ==> parts[k] == rest[k - 1];
    assert forall k :: 0 <= k < |rest| ==> rest[k] == parts[k + 1];
  }

  lemma {:induction false} TailIsWords(code: string)
    ensures var parts := Strings.Split(code, '-');
            CodeTail(code) <==> (parts[0] == "" || Word(parts[0])) && TailWords(parts)
    decreases |code|, 1
  {
    if code != "" {
      if code[0] == '-' {
        CodeIsWords(code[1..]);
        CodeAfterHyphen(code);
        var parts, rest := Strings.Split(code, '-'), Strings.Split(code[1..], '-');
        assert parts == [[]] + rest;
        hide ValidCode, CodeTail, Word;
        ShiftedWords(parts, rest);
      } else {
        TailIsWords(code[1..]);
        CodeAfterFirst(code);
        SplitWord(code);
        assert Strings.Split(code, '-')[0] != "";
        hide ValidCode, CodeTail, Word;
      }
    }
  }

  /** Whether a sibling other than id carries the code; two null parents are one parent. */
  predicate CodeTaken(t: Table, id: Id, parent: Id, code: string) {
    exists other :: other in t && other != id && t[other].parent == parent && t[other].code == code
  }

  datatype Refusal = CheckViolation | UniqueViolation | NoParent | NotFound | VersionMismatch | Cycle | Referenced

  /** The constraint the engine refuses a row for. */
  function Violation(t: Table, id: Id, row: Organization): Option<Refusal> {
    if !ValidCode(row.code) || row.name == "" || row.parent == id then Some(CheckViolation)
    else if CodeTaken(t, id, row.parent, row.code) then Some(UniqueViolation)
    else if row.parent != TOP && row.parent !in t then Some(NoParent)
    else None
  }

  /** The version guard: a missing row, another version, or nothing. */
  function Guard(t: Table, id: Id, version: nat): Option<Refusal> {
    if id !in t then Some(NotFound)
    else if t[id].version != version then Some(VersionMismatch)
    else None
  }

  predicate HasChild(t: Table, id: Id) {
    exists child :: child in t && t[child].parent == id
  }

  /** The row as an event carries it. */
  function Stored(t: Table, id: Id): OrganizationData
    requires id in t
  {
    OrganizationData(id, t[id].parent, t[id].code, t[id].name, t[id].version)
  }

  /** A command, with what only the database knows: the id the insert takes, and whether
      another table's row references the organization a delete names. */
  datatype Command =
    | Create(id: Id, parent: Id, code: string, name: string)
    | Edit(id: Id, version: nat, code: string, name: string)
    | Transfer(id: Id, version: nat, parent: Id)
    | Delete(id: Id, version: nat, referenced: bool)

  datatype Reply = Committed(table: Table, event: Event) | Refused(refusal: Refusal)

  /** The command's whole transaction on the table. */
  ghost function Run(t: Table, c: Command): Reply {
    match c
    case Create(id, parent, code, name) =>
      var row := Organization(parent, code, name, 1);
      (match Violation(t, id, row)
       case Some(r) => Refused(r)
       case None =>
         var t' := t[id := row];
         Committed(t', OrganizationCreated(Stored(t', id))))
    case Edit(id, version, code, name) =>
      (match Guard(t, id, version)
       case Some(r) => Refused(r)
       case None => Update(t, id, t[id].(code := code, name := name), false))
    case Transfer(id, version, parent) =>
      if parent in t && id in t && Within(ParentsOf(t), parent, id) then Refused(Cycle)
      else
        (match Guard(t, id, version)
         case Some(r) => Refused(r)
         case None => Update(t, id, t[id].(parent := parent), true))
    case Delete(id, version, referenced) =>
      (match Guard(t, id, version)
       case Some(r) => Refused(r)
       case None =>
         if HasChild(t, id) || referenced then Refused(Referenced)
         else Committed(t - {id}, OrganizationDeleted(id, version)))
  }

  /** A guarded update of a row matched at its version, which advances by one. */
  ghost function Update(t: Table, id: Id, row: Organization, transferred: bool): Reply
    requires id in t
  {
    match Violation(t, id, row)
    case Some(r) => Refused(r)
    case None =>
      var t' := t[id := row.(version := t[id].version + 1)];
      Committed(t', if transferred then OrganizationTransferred(Stored(t', id)) else OrganizationEdited(Stored(t', id)))
  }

  // ---- What each command answers ----

  /** A create stores its own arguments at version 1, wherever the code rule, the name, the parent,
      and the siblings' codes let it. */
  lemma CreateAnswers(t: Table, id: Id, parent: Id, code: string, name: string)
    ensures var r := Run(t, Create(id, parent, code, name));
            var checked := ValidCode(code) && name != "" && parent != id;
            var taken := exists x :: x in t && x != id && t[x].parent == parent && t[x].code == code;
            var stands := parent == TOP || parent in t;
            && (r == Refused(CheckViolation) <==> !checked)
            && (r == Refused(UniqueViolation) <==> checked && taken)
            && (r == Refused(NoParent) <==> checked && !taken && !stands)
            && (r.Committed? <==> checked && !taken && stands)
            && (r.Committed? ==>
                  r == Committed(t[id := Organization(parent, code, name, 1)], OrganizationCreated(OrganizationData(id, parent, code, name, 1))))
  {
    hide ValidCode;
  }

  /** An edit writes its code and name at the version it names, and moves nothing. */
  lemma EditAnswers(t: Table, id: Id, version: nat, code: string, name: string)
    requires Sound(t)
    ensures var r := Run(t, Edit(id, version, code, name));
            && (r == Refused(NotFound) <==> id !in t)
            && (r == Refused(VersionMismatch) <==> id in t && t[id].version != version)
            && (id in t && t[id].version == version ==>
                  var parent := t[id].parent;
                  var checked := ValidCode(code) && name != "";
                  var taken := exists x :: x in t && x != id && t[x].parent == parent && t[x].code == code;
                  && (r == Refused(CheckViolation) <==> !checked)
                  && (r == Refused(UniqueViolation) <==> checked && taken)
                  && (r.Committed? <==> checked && !taken)
                  && (r.Committed? ==>
                        r == Committed(t[id := Organization(parent, code, name, version + 1)],
                                       OrganizationEdited(OrganizationData(id, parent, code, name, version + 1)))))
  {
    hide ValidCode, Constrained;
    if id in t {
      ParentStands(t, id);
      NotOwnParent(t, id);
    }
    hide IsForest;
  }

  lemma NotOwnParent(t: Table, id: Id)
    requires IsForest(ParentsOf(t)) && id in t
    ensures t[id].parent != id
  {
    if t[id].parent == id {
      WithinStep(ParentsOf(t), id, id);
      assert Up(ParentsOf(t), id, 1) == id;
      NoCycle(ParentsOf(t), id, 1);
    }
  }

  /** A transfer writes its parent at the version it names, and nothing else; a parent in the
      organization's own subtree is a cycle whatever the version. */
  lemma TransferAnswers(t: Table, id: Id, version: nat, parent: Id)
    requires Sound(t)
    ensures var r := Run(t, Transfer(id, version, parent));
            var cycle := id in t && parent in t && Within(ParentsOf(t), parent, id);
            && (r == Refused(Cycle) <==> cycle)
            && (r == Refused(NotFound) <==> id !in t)
            && (r == Refused(VersionMismatch) <==> id in t && !cycle && t[id].version != version)
            && (id in t && !cycle && t[id].version == version ==>
                  var code, name := t[id].code, t[id].name;
                  var taken := exists x :: x in t && x != id && t[x].parent == parent && t[x].code == code;
                  var stands := parent == TOP || parent in t;
                  && (r == Refused(UniqueViolation) <==> taken)
                  && (r == Refused(NoParent) <==> !taken && !stands)
                  && (r.Committed? <==> !taken && stands)
                  && (r.Committed? ==>
                        r == Committed(t[id := Organization(parent, code, name, version + 1)],
                                       OrganizationTransferred(OrganizationData(id, parent, code, name, version + 1)))))
  {
    WithinSelf(ParentsOf(t), id);
    hide ValidCode, IsForest, Within;
  }

  /** A delete removes the row at the version it names, unless a child or another table's row
      references it. */
  lemma DeleteAnswers(t: Table, id: Id, version: nat, referenced: bool)
    ensures var r := Run(t, Delete(id, version, referenced));
            && (r == Refused(NotFound) <==> id !in t)
            && (r == Refused(VersionMismatch) <==> id in t && t[id].version != version)
            && (id in t && t[id].version == version ==>
                  var parents := exists x :: x in t && t[x].parent == id;
                  && (r == Refused(Referenced) <==> parents || referenced)
                  && (r.Committed? <==> !parents && !referenced)
                  && (r.Committed? ==> r == Committed(t - {id}, OrganizationDeleted(id, version))))
  {
  }

  // ---- What every command keeps ----

  /** The table's checks and its unique constraint. */
  ghost predicate Constrained(t: Table) {
    && (forall id :: id in t ==> ValidCode(t[id].code) && t[id].name != "" && t[id].version >= 1)
    && (forall a, b :: a in t && b in t && a != b ==> t[a].parent != t[b].parent || t[a].code != t[b].code)
  }

  /** The schema's constraints, and the forest the transfer's check keeps. */
  ghost predicate Sound(t: Table) {
    IsForest(ParentsOf(t)) && Constrained(t)
  }

  lemma WriteKeepsConstrained(t: Table, id: Id, row: Organization, version: nat)
    requires Constrained(t) && Violation(t, id, row).None? && version >= 1
    ensures Constrained(t[id := row.(version := version)])
  {
    hide ValidCode;
  }

  lemma CreateKeepsForest(t: Table, id: Id, row: Organization)
    requires IsForest(ParentsOf(t)) && Violation(t, id, row).None? && id !in t && id != TOP
    ensures IsForest(ParentsOf(t[id := row]))
  {
    assert ParentsOf(t[id := row]) == ParentsOf(t)[id := row.parent];
    Insert(ParentsOf(t), id, row.parent);
  }

  /** A written parent keeps the forest exactly when it is outside the row's subtree. */
  lemma WriteKeepsForest(t: Table, id: Id, row: Organization)
    requires IsForest(ParentsOf(t)) && id in t && (row.parent == TOP || row.parent in t)
    ensures IsForest(ParentsOf(t[id := row])) <==> !Within(ParentsOf(t), row.parent, id)
    ensures row.parent == t[id].parent ==> IsForest(ParentsOf(t[id := row]))
  {
    assert ParentsOf(t[id := row]) == ParentsOf(t)[id := row.parent];
    Reparent(ParentsOf(t), id, row.parent);
    if row.parent == t[id].parent {
      assert ParentsOf(t)[id := row.parent] == ParentsOf(t);
    }
  }

  lemma DeleteKeepsSound(t: Table, id: Id)
    requires Sound(t) && id in t && !HasChild(t, id)
    ensures Sound(t - {id})
  {
    assert ParentsOf(t - {id}) == ParentsOf(t) - {id};
    Remove(ParentsOf(t), id);
  }

  /** Every committed command keeps the constraints and the forest. */
  lemma RunKeepsSound(t: Table, c: Command)
    requires Sound(t) && Run(t, c).Committed?
    requires c.Create? ==> c.id !in t && c.id != TOP
    ensures Sound(Run(t, c).table)
  {
    hide Constrained, IsForest, Violation;
    match c
    case Create(id, parent, code, name) =>
      CreateKeepsForest(t, id, Organization(parent, code, name, 1));
      WriteKeepsConstrained(t, id, Organization(parent, code, name, 1), 1);
    case Edit(id, version, code, name) =>
      var row := t[id].(code := code, name := name);
      ParentStands(t, id);
      WriteKeepsForest(t, id, row.(version := version + 1));
      WriteKeepsConstrained(t, id, row, version + 1);
    case Transfer(id, version, parent) =>
      var row := t[id].(parent := parent);
      TransferOutside(t, id, row);
      WriteKeepsForest(t, id, row.(version := version + 1));
      WriteKeepsConstrained(t, id, row, version + 1);
    case Delete(id, _, _) =>
      DeleteKeepsSound(t, id);
  }

  lemma ParentStands(t: Table, id: Id)
    requires IsForest(ParentsOf(t)) && id in t
    ensures t[id].parent == TOP || t[id].parent in t
  {
    assert ParentsOf(t)[id] == t[id].parent;
  }

  lemma TransferOutside(t: Table, id: Id, row: Organization)
    requires IsForest(ParentsOf(t)) && id in t && Violation(t, id, row).None?
    requires !(row.parent in t && Within(ParentsOf(t), row.parent, id))
    ensures row.parent == TOP || row.parent in t
    ensures !Within(ParentsOf(t), row.parent, id)
  {
    if row.parent == TOP {
      WithinOutside(ParentsOf(t), TOP, id);
    }
  }

  // ---- Replaying the events ----

  /** What a consumer does with an event: it keeps the row an event carries and drops the
      row a delete names; a reset discards everything. */
  function Apply(copy: Table, e: Event): Table {
    match e
    case OrganizationCreated(o) => copy[o.id := Organization(o.parent, o.code, o.name, o.version)]
    case OrganizationEdited(o) => copy[o.id := Organization(o.parent, o.code, o.name, o.version)]
    case OrganizationTransferred(o) => copy[o.id := Organization(o.parent, o.code, o.name, o.version)]
    case OrganizationDeleted(id, _) => copy - {id}
    case StateReset(_) => map[]
    case _ => copy
  }

  function Replay(log: seq<Event>): Table {
    if log == [] then map[] else Apply(Replay(log[..|log| - 1]), log[|log| - 1])
  }

  lemma ReplayNext(log: seq<Event>, e: Event)
    ensures Replay(log + [e]) == Apply(Replay(log), e)
  {
    assert (log + [e])[..|log|] == log;
  }

  /** A command's event turns the table before it into the table after it. */
  lemma RunReplays(t: Table, c: Command)
    requires Run(t, c).Committed?
    ensures Apply(t, Run(t, c).event) == Run(t, c).table
  {
  }

  // ---- The versions an organization's events carry ----

  // ---- Events that leave no organization ----

  predicate WritesRow(e: Event) {
    e.OrganizationCreated? || e.OrganizationEdited? || e.OrganizationTransferred?
  }

  predicate DropsRow(e: Event, id: Id) {
    e.OrganizationDeleted? && e.orgId == id
  }

  /** The event at i writes the row, and none after it deletes it. */
  ghost predicate Leaves(log: seq<Event>, i: nat, id: Id) {
    i < |log| && WritesRow(log[i]) && log[i].org.id == id && forall j :: i < j < |log| ==> !DropsRow(log[j], id)
  }

  /** The events delete each organization they write. */
  ghost predicate Undone(log: seq<Event>) {
    forall i :: 0 <= i < |log| && WritesRow(log[i]) ==> exists j :: i < j < |log| && DropsRow(log[j], log[i].org.id)
  }

  lemma {:induction false} ReplayLeaves(log: seq<Event>, id: Id)
    requires forall i :: 0 <= i < |log| ==> !log[i].StateReset?
    ensures id in Replay(log) <==> exists i: nat :: Leaves(log, i, id)
  {
    if log != [] {
      var before, last := log[..|log| - 1], |log| - 1;
      ReplayLeaves(before, id);
      if WritesRow(log[last]) && log[last].org.id == id {
        assert Leaves(log, last, id);
      } else if !DropsRow(log[last], id) {
        forall i: nat | i < last
          ensures Leaves(log, i, id) <==> Leaves(before, i, id)
        {
          assert before[i] == log[i];
        }
      } else {
        forall i: nat
          ensures !Leaves(log, i, id)
        {
          assert DropsRow(log[last], id);
        }
      }
    }
  }

  lemma UndoneIsNothing(log: seq<Event>)
    requires forall i :: 0 <= i < |log| ==> !log[i].StateReset?
    ensures Replay(log) == map[] <==> Undone(log)
  {
    hide Replay;
    if Undone(log) {
      forall id
        ensures id !in Replay(log)
      {
        ReplayLeaves(log, id);
      }
      assert Replay(log) == map[];
    } else {
      var i: nat :| i < |log| && WritesRow(log[i]) && forall j :: i < j < |log| ==> !DropsRow(log[j], log[i].org.id);
      assert Leaves(log, i, log[i].org.id);
      ReplayLeaves(log, log[i].org.id);
    }
  }

  function VersionAbout(e: Event, id: Id): seq<nat> {
    match e
    case OrganizationCreated(o) => if o.id == id then [o.version] else []
    case OrganizationEdited(o) => if o.id == id then [o.version] else []
    case OrganizationTransferred(o) => if o.id == id then [o.version] else []
    case OrganizationDeleted(d, v) => if d == id then [v] else []
    case _ => []
  }

  function VersionsAbout(log: seq<Event>, id: Id): seq<nat> {
    if log == [] then [] else VersionsAbout(log[..|log| - 1], id) + VersionAbout(log[|log| - 1], id)
  }

  /** 1, 2, ..., n. */
  function UpTo(n: nat): (s: seq<nat>)
    ensures |s| == n && forall i :: 0 <= i < n ==> s[i] == i + 1
  {
    if n == 0 then [] else UpTo(n - 1) + [n]
  }

  // ---- Runs ----

  /** The table, every id ever minted, and the events committed so far. */
  datatype State = State(table: Table, minted: set<Id>, log: seq<Event>)

  const INITIAL := State(map[], {}, [])

  /** One command's transaction; a refused one changes nothing, and so does an id the
      engine would not mint. */
  ghost function Next(s: State, c: Command): State {
    if c.Create? && (c.id in s.minted || c.id == TOP) then s
    else
      match Run(s.table, c)
      case Refused(_) => s
      case Committed(t, e) => State(t, if c.Create? then s.minted + {c.id} else s.minted, s.log + [e])
  }

  ghost function Exec(s: State, commands: seq<Command>): State
    decreases |commands|
  {
    if commands == [] then s else Exec(Next(s, commands[0]), commands[1..])
  }

  /** The versions of the events about one id: 1 to its version while the row stands, and
      once it is removed 1 to n and then n again, the removal's. */
  ghost predicate History(s: State, id: Id) {
    var versions := VersionsAbout(s.log, id);
    if id in s.table then versions == UpTo(s.table[id].version)
    else if id in s.minted then exists n: nat :: n >= 1 && versions == UpTo(n) + [n]
    else versions == []
  }

  ghost predicate Inv(s: State) {
    && Sound(s.table)
    && s.table.Keys <= s.minted
    && Replay(s.log) == s.table
    && forall id :: History(s, id)
  }

  lemma VersionsNext(log: seq<Event>, e: Event, id: Id)
    ensures VersionsAbout(log + [e], id) == VersionsAbout(log, id) + VersionAbout(e, id)
  {
    assert (log + [e])[..|log|] == log;
  }

  /** What a command's event carries about one id: nothing, and the row as it was; its first
      version; its next; or the removed row's own again. */
  predicate Carries(s: State, t: State, id: Id, carried: seq<nat>) {
    || (carried == [] && (id in t.table <==> id in s.table) && (id in s.table ==> t.table[id].version == s.table[id].version)
        && (id in t.minted <==> id in s.minted))
    || (carried == [1] && id !in s.minted && id !in s.table && id in t.table && t.table[id].version == 1)
    || (id in s.table && carried == [s.table[id].version + 1] && id in t.table && t.table[id].version == s.table[id].version + 1)
    || (id in s.table && carried == [s.table[id].version] && id !in t.table && id in t.minted)
  }

  lemma CommandCarries(s: State, c: Command, id: Id)
    requires s.table.Keys <= s.minted && !(c.Create? && (c.id in s.minted || c.id == TOP)) && Run(s.table, c).Committed?
    ensures Carries(s, Next(s, c), id, VersionAbout(Run(s.table, c).event, id))
  {
    hide Violation, Within;
  }

  lemma HistoryNext(s: State, t: State, id: Id, carried: seq<nat>)
    requires History(s, id) && Carries(s, t, id, carried) && s.table.Keys <= s.minted && (id in s.table ==> s.table[id].version >= 1)
    requires VersionsAbout(t.log, id) == VersionsAbout(s.log, id) + carried
    ensures History(t, id)
  {
    hide VersionsAbout;
    var versions := VersionsAbout(s.log, id);
    assert versions + [] == versions;
    if id !in s.minted {
      assert UpTo(1) == UpTo(0) + [1] && versions == UpTo(0);
    }
  }

  /** The events about one organization keep their order. */
  lemma NextKeepsHistory(s: State, c: Command, id: Id)
    requires s.table.Keys <= s.minted && History(s, id)
    requires id in s.table ==> s.table[id].version >= 1
    ensures History(Next(s, c), id)
  {
    hide History, Carries, VersionsAbout, VersionAbout, Run;
    if !(c.Create? && (c.id in s.minted || c.id == TOP)) && Run(s.table, c).Committed? {
      var e := Run(s.table, c).event;
      VersionsNext(s.log, e, id);
      CommandCarries(s, c, id);
      HistoryNext(s, Next(s, c), id, VersionAbout(e, id));
    }
  }

  lemma NextKeepsInv(s: State, c: Command)
    requires Inv(s)
    ensures Inv(Next(s, c))
  {
    hide History, Violation, IsForest, Replay;
    forall id
      ensures History(Next(s, c), id)
    {
      assert History(s, id);
      NextKeepsHistory(s, c, id);
    }
    NextKeepsReplay(s, c);
  }

  lemma NextKeepsReplay(s: State, c: Command)
    requires Sound(s.table) && s.table.Keys <= s.minted && Replay(s.log) == s.table
    ensures var s' := Next(s, c); Sound(s'.table) && s'.table.Keys <= s'.minted && Replay(s'.log) == s'.table
  {
    hide Sound, Violation, Replay;
    if Next(s, c) != s {
      RunKeepsSound(s.table, c);
      RunReplays(s.table, c);
      ReplayNext(s.log, Run(s.table, c).event);
    }
  }

  /** Over every run of commands, refused ones among them, the table stays sound, the
      events replay to it, and each organization's events carry its versions in order. */
  lemma {:induction false} RunsKeepInv(s: State, commands: seq<Command>)
    requires Inv(s)
    ensures Inv(Exec(s, commands))
    decreases |commands|
  {
    if commands != [] {
      NextKeepsInv(s, commands[0]);
      RunsKeepInv(Next(s, commands[0]), commands[1..]);
    }
  }

  lemma InitialInv()
    ensures Inv(INITIAL)
  {
    assert ParentsOf(map[]) == map[];
  }

  /** The same, from the empty schema. */
  lemma AllRuns(commands: seq<Command>)
    ensures Inv(Exec(INITIAL, commands))
  {
    InitialInv();
    RunsKeepInv(INITIAL, commands);
  }
}
