/** The whole service: the organizations, their logos, and their documents over one outbox,
    the relay that publishes it, and the state reset. A reset drops every row and every event
    not yet published, and then commits its one event, where a consumer discards what it holds.
    Requests go on between the two: whatever they commit there, the rows are what the events
    since the drop replay to, and the reset's event leaves a consumer right exactly when those
    events delete again each organization they write. */
module Service {
  import opened Forest
  import opened Events
  import Organizations
  import Logos
  import LogoRuns
  import opened Documents
  import opened DocumentScope
  import DR = DocumentReplay
  import DocumentRuns

  /** The committed rows; the outbox in commit order, how much of it is published, and how much
      the last drop left; and the reset under way, from its drop to its event. */
  datatype State = State(table: Organizations.Table, minted: set<Id>, logos: Logos.State, docs: DocumentRuns.State,
                         log: seq<Event>, published: nat, dropped: nat, resetting: Option<string>)

  const INITIAL := State(map[], {}, Logos.EMPTY, DocumentRuns.INITIAL, [], 0, 0, None)

  datatype Step =
    | Organization(c: Organizations.Command)
    | Logo(step: Logos.Step)
    | Document(command: Documents.Command)
    | Publish
    | Drop(state: string)
    | CommitReset

  /** Another table's row references the organization. */
  predicate Referenced(s: State, org: Id) {
    Logos.Bound(s.logos.images, org) || org in s.docs.rows.roots
  }

  /** A transaction that holds a row or has read one: a drop waits for it. */
  predicate Busy(logos: Logos.State) {
    exists c :: c in logos.clients && (logos.clients[c].Held? || logos.clients[c].Seen? || logos.clients[c].Reading?)
  }

  /** The commands' own events, the resets' left out. */
  function Domain(log: seq<Event>): seq<Event> {
    if log == [] then [] else Domain(log[..|log| - 1]) + if log[|log| - 1].StateReset? then [] else [log[|log| - 1]]
  }

  /** What the commands have committed since the last drop. */
  function Since(s: State): seq<Event> {
    if s.dropped <= |s.log| then Domain(s.log[s.dropped..]) else []
  }

  /** What the engine decides, as the tables have it, and no directory created again under an
      id the events since the drop still lay entries under. */
  ghost predicate Enabled(s: State, step: Step) {
    match step
    case Organization(c) =>
      && (c.Create? ==> c.id !in s.minted && c.id != TOP)
      && (c.Delete? ==> c.referenced == Referenced(s, c.id))
    case Logo(l) => !l.CreateOrganization? && !l.DeleteOrganization?
    case Document(c) =>
      && (c.EnsureRoot? ==> c.stands == (c.org in s.table))
      && DR.Allowed(s.docs.rows, DR.Replay(Since(s)), c)
    case _ => true
  }

  ghost function RunOrganization(s: State, c: Organizations.Command): State {
    match Organizations.Run(s.table, c)
    case Refused(_) => s
    case Committed(t, e) =>
      s.(table := t, minted := if c.Create? then s.minted + {c.id} else s.minted, log := s.log + [e],
         logos := s.logos.(orgs := t.Keys))
  }

  ghost function RunLogo(s: State, step: Logos.Step): State {
    var l := Logos.Next(true, s.logos.(log := []), step);
    s.(logos := l, log := s.log + l.log)
  }

  ghost function RunDocument(s: State, c: Documents.Command): State {
    var d := DocumentRuns.Next(s.docs.(log := []), c);
    s.(docs := d, log := s.log + d.log)
  }

  /** One step. The relay pauses between a reset's drop and its event; no request does. The
      service pauses its sweep there too, whose steps are let through here all the same. */
  ghost function Next(s: State, step: Step): State {
    if !Enabled(s, step) then s
    else
      match step
      case Organization(c) => RunOrganization(s, c)
      case Logo(l) => RunLogo(s, l)
      case Document(c) => RunDocument(s, c)
      case Publish => if s.published < |s.log| && s.resetting.None? then s.(published := s.published + 1) else s
      case Drop(state) =>
        if Busy(s.logos) || s.published > |s.log| then s
        else
          State(map[], s.minted, s.logos.(orgs := {}, files := map[], images := map[]), s.docs.(rows := EMPTY),
                s.log[..s.published], s.published, s.published, Some(state))
      case CommitReset =>
        if s.resetting.None? then s else s.(log := s.log + [StateReset(s.resetting.value)], resetting := None)
  }

  ghost function Exec(s: State, steps: seq<Step>): State
    decreases |steps|
  {
    if steps == [] then s else Exec(Next(s, steps[0]), steps[1..])
  }

  // ---- What a consumer holds ----

  /** The rows are what the log replays to: the organizations and the active logos exactly,
      the documents as they show. */
  ghost predicate Replays(s: State, log: seq<Event>) {
    && Organizations.Replay(log) == s.table
    && Logos.Shows(s.logos.images, Logos.Replay(log))
    && DR.Agree(s.docs.rows, DR.Replay(log))
    && DocumentRuns.Owned(s.docs.rows, s.docs.begun, DR.Replay(log))
    && DocumentRuns.Known(s.docs.used, s.docs.rows, DR.Replay(log))
  }

  ghost predicate Rows(s: State) {
    && Organizations.Sound(s.table) && s.table.Keys <= s.minted
    && Logos.Core(s.logos) && s.logos.orgs == s.table.Keys
    && Sound(s.docs.rows) && DocumentRuns.BegunAtHome(s.docs.rows, s.docs.begun) && s.docs.rows.roots.Keys <= s.table.Keys
  }

  /** How the outbox stands: nothing is published between a drop and its event, and nothing but
      the commands' events is in it past the drop. */
  ghost predicate Outbox(s: State) {
    && s.dropped <= s.published <= |s.log|
    && (s.resetting.Some? ==> s.published == s.dropped && Since(s) == s.log[s.dropped..])
  }

  ghost predicate Inv(s: State) {
    Rows(s) && Outbox(s) && Replays(s, Since(s))
  }

  // ---- Each domain's events leave the others' copies alone ----

  predicate OfOrganizations(e: Event) {
    e.OrganizationCreated? || e.OrganizationEdited? || e.OrganizationTransferred? || e.OrganizationDeleted?
  }

  predicate OfLogos(e: Event) { e.LogoUploaded? || e.LogoDeleted? }

  predicate OfDocuments(e: Event) {
    || e.DirectoryCreated? || e.DirectoryMoved? || e.DirectoryDeleted? || e.FileUploaded? || e.FileMoved? || e.FileDeleted?
  }

  lemma ReplaysNext(log: seq<Event>, e: Event)
    ensures !OfOrganizations(e) && !e.StateReset? ==> Organizations.Replay(log + [e]) == Organizations.Replay(log)
    ensures !OfLogos(e) && !e.StateReset? ==> Logos.Replay(log + [e]) == Logos.Replay(log)
    ensures !OfDocuments(e) && !e.StateReset? ==> DR.Replay(log + [e]) == DR.Replay(log)
  {
    hide Organizations.Replay, Logos.Replay, DR.Replay;
    Organizations.ReplayNext(log, e);
    Logos.ReplayNext(log, e);
    DR.ReplayNext(log, e);
  }

  /** The outbox after a command: as before, or with its one event. */
  ghost predicate Adds(s: State, t: State) {
    && t.published == s.published && t.dropped == s.dropped && t.resetting == s.resetting
    && |s.log| <= |t.log| <= |s.log| + 1 && t.log == s.log + t.log[|s.log|..]
    && (|t.log| > |s.log| ==> !t.log[|s.log|].StateReset?)
  }

  /** What it added. */
  function Added(s: State, t: State): seq<Event> {
    if |s.log| <= |t.log| then t.log[|s.log|..] else []
  }

  lemma AddsNothing(s: State, t: State)
    requires t.log == s.log && t.published == s.published && t.dropped == s.dropped && t.resetting == s.resetting
    ensures Adds(s, t) && Added(s, t) == []
  {
  }

  lemma AddsOne(s: State, t: State, e: Event)
    requires t.log == s.log + [e] && !e.StateReset?
    requires t.published == s.published && t.dropped == s.dropped && t.resetting == s.resetting
    ensures Adds(s, t) && Added(s, t) == [e]
  {
  }

  lemma DomainNext(log: seq<Event>, e: Event)
    ensures Domain(log + [e]) == Domain(log) + if e.StateReset? then [] else [e]
  {
    assert (log + [e])[..|log|] == log;
  }

  lemma SinceNext(s: State, t: State)
    requires Adds(s, t) && s.dropped <= |s.log|
    ensures Since(t) == Since(s) + Added(s, t)
    ensures s.log[s.dropped..] == Since(s) ==> t.log[t.dropped..] == Since(t)
  {
    if |t.log| > |s.log| {
      var e := t.log[|s.log|];
      assert t.log[t.dropped..] == s.log[s.dropped..] + [e];
      DomainNext(s.log[s.dropped..], e);
      assert Added(s, t) == [e];
    } else {
      assert t.log == s.log;
      assert Since(s) + [] == Since(s);
    }
  }

  // ---- Organizations ----

  lemma OrganizationKeeps(s: State, c: Organizations.Command, log: seq<Event>)
    requires Rows(s) && Replays(s, log) && Enabled(s, Organization(c))
    ensures var t := RunOrganization(s, c); Rows(t) && Adds(s, t) && Replays(t, log + Added(s, t))
  {
    hide Organizations.Sound, Organizations.Replay, Logos.Replay, DR.Replay, Logos.Core, Logos.Shows, DR.Agree, DocumentRuns.Owned,
         DocumentRuns.Known, DocumentRuns.BegunAtHome, Documents.Sound, Organizations.Violation, Adds, Added;
    var t := RunOrganization(s, c);
    match Organizations.Run(s.table, c)
    case Refused(_) =>
      AddsNothing(s, t);
      assert log + [] == log;
    case Committed(u, e) =>
      Organizations.RunKeepsSound(s.table, c);
      Organizations.RunReplays(s.table, c);
      Organizations.ReplayNext(log, e);
      ReplaysNext(log, e);
      TableKeys(s.table, c);
      ImagesStand(s.logos);
      Logos.OrganizationsKeepCore(s.logos, u.Keys);
      AddsOne(s, t, e);
  }

  lemma TableKeys(t: Organizations.Table, c: Organizations.Command)
    requires Organizations.Run(t, c).Committed?
    ensures var t' := Organizations.Run(t, c).table;
            t'.Keys == if c.Create? then t.Keys + {c.id} else if c.Delete? then t.Keys - {c.id} else t.Keys
    ensures c.Delete? ==> !c.referenced
    ensures OfOrganizations(Organizations.Run(t, c).event)
  {
  }

  lemma ImagesStand(l: Logos.State)
    requires Logos.Core(l)
    ensures forall f :: f in l.images ==> l.images[f] in l.orgs && Logos.Bound(l.images, l.images[f])
  {
  }

  // ---- Logos ----

  lemma LogAside(s: Logos.State, log: seq<Event>)
    ensures Logos.Seeding(s.(log := log)) == Logos.Seeding(s)
    ensures forall f :: Logos.Mentioned(s.(log := log), f) == Logos.Mentioned(s, f)
    ensures forall org, f :: Logos.Endangered(s.(log := log), org, f) == Logos.Endangered(s, org, f)
    ensures forall c, f :: Logos.HeldByAnother(s.(log := log), c, f) == Logos.HeldByAnother(s, c, f)
  {
  }

  /** The logos after a step with the log as it was before it, and the same after none: its event
      is one whatever was committed before it. */
  ghost predicate Appends(t: Logos.State, u: Logos.State, log: seq<Event>, orgs: set<Id>) {
    u == t.(log := log + t.log) && t.orgs == orgs && (t.log == [] || (|t.log| == 1 && OfLogos(t.log[0])))
  }

  lemma LogoAppends(s: Logos.State, step: Logos.Step, log: seq<Event>)
    requires s.log == [] && !step.CreateOrganization? && !step.DeleteOrganization?
    ensures Appends(Logos.Next(true, s, step), Logos.Next(true, s.(log := log), step), log, s.orgs)
  {
    hide Logos.Next;
    match step
    case Activate(c, lenient) => ActivateAppends(s, c, lenient, log);
    case CommitDelete(c, lenient) => CommitAppends(s, c, lenient, log);
    case BeginSeed(c, org, id) => SeedAppends(s, c, org, id, log);
    case Wipe(_) => PurgeAppends(s, step, log);
    case Erase(_) => PurgeAppends(s, step, log);
    case FailPurge(_) => PurgeAppends(s, step, log);
    case Remove(_, _) => PurgeAppends(s, step, log);
    case _ => if Writes(step) { WriteAppends(s, step, log); } else { OtherAppends(s, step, log); }
  }

  predicate Writes(step: Logos.Step) {
    step.BeginPut? || step.PutObject? || step.FailPut? || step.Complete? || step.SweepMark?
  }

  lemma WriteAppends(s: Logos.State, step: Logos.Step, log: seq<Event>)
    requires s.log == [] && Writes(step)
    ensures Appends(Logos.Next(true, s, step), Logos.Next(true, s.(log := log), step), log, s.orgs)
  {
    hide Logos.Mentioned, Logos.Finish;
    LogAside(s, log);
    assert log + [] == log;
    if step.Complete? && step.c in s.clients && s.clients[step.c].Stored? {
      FinishAppends(s, step.c, s.clients[step.c], log);
    }
  }

  lemma FinishAppends(s: Logos.State, c: nat, pc: Logos.Client, log: seq<Event>)
    requires s.log == [] && pc.Stored?
    ensures var t := Logos.Finish(s, c, pc);
            Logos.Finish(s.(log := log), c, pc) == t.(log := log) && t.orgs == s.orgs && t.log == []
  {
  }

  lemma PurgeAppends(s: Logos.State, step: Logos.Step, log: seq<Event>)
    requires s.log == [] && (step.Wipe? || step.Erase? || step.FailPurge? || step.Remove?)
    ensures Appends(Logos.Next(true, s, step), Logos.Next(true, s.(log := log), step), log, s.orgs)
  {
    assert log + [] == log;
  }

  lemma OtherAppends(s: Logos.State, step: Logos.Step, log: seq<Event>)
    requires s.log == [] && (step.Hold? || step.Read? || step.BeginDelete? || step.SweepClaim?)
    ensures Appends(Logos.Next(true, s, step), Logos.Next(true, s.(log := log), step), log, s.orgs)
  {
    hide Logos.ReadActive, Logos.ActiveIn;
    assert log + [] == log;
    if step.Read? && step.c in s.clients && s.clients[step.c].Held? {
      ReadAppends(s, s.clients[step.c], log);
    }
  }

  lemma ActivateAppends(s: Logos.State, c: nat, lenient: bool, log: seq<Event>)
    requires s.log == []
    ensures Appends(Logos.Next(true, s, Logos.Activate(c, lenient)), Logos.Next(true, s.(log := log), Logos.Activate(c, lenient)), log, s.orgs)
  {
    hide Logos.HeldByAnother, Logos.Activation;
    LogAside(s, log);
    assert log + [] == log;
    if c in s.clients && s.clients[c].Seen? {
      ActivationAppends(s, c, s.clients[c], lenient, log);
    }
  }

  lemma CommitAppends(s: Logos.State, c: nat, lenient: bool, log: seq<Event>)
    requires s.log == []
    ensures Appends(Logos.Next(true, s, Logos.CommitDelete(c, lenient)), Logos.Next(true, s.(log := log), Logos.CommitDelete(c, lenient)), log, s.orgs)
  {
    hide Logos.HeldByAnother, Logos.Deletion;
    LogAside(s, log);
    assert log + [] == log;
    if c in s.clients && s.clients[c].Reading? && s.clients[c].current.Some? {
      DeletionAppends(s, c, s.clients[c], lenient, log);
    }
  }

  lemma SeedAppends(s: Logos.State, c: nat, org: Id, id: nat, log: seq<Event>)
    requires s.log == []
    ensures Appends(Logos.Next(true, s, Logos.BeginSeed(c, org, id)), Logos.Next(true, s.(log := log), Logos.BeginSeed(c, org, id)), log, s.orgs)
  {
    hide Logos.Endangered, Logos.Seeding;
    LogAside(s, log);
    assert log + [] == log;
  }

  lemma ReadAppends(s: Logos.State, pc: Logos.Client, log: seq<Event>)
    requires pc.Held?
    ensures Logos.ReadActive(s.(log := log), pc) == Logos.ReadActive(s, pc)
  {
  }

  lemma ReleasedAside(s: Logos.State, current: Option<FileId>, lenient: bool, log: seq<Event>)
    ensures Logos.Released(s.(log := log), current) == Logos.Released(s, current).(log := log)
    ensures Logos.Releases(s.(log := log), current, lenient) == Logos.Releases(s, current, lenient)
    ensures Logos.Released(s, current).orgs == s.orgs
  {
  }

  lemma ActivationAppends(s: Logos.State, c: nat, pc: Logos.Client, lenient: bool, log: seq<Event>)
    requires s.log == [] && pc.Seen?
    ensures Appends(Logos.Activation(s, c, pc, lenient), Logos.Activation(s.(log := log), c, pc, lenient), log, s.orgs)
  {
    hide Logos.Bound, Logos.Released, Logos.Releases;
    ReleasedAside(s, pc.current, lenient, log);
    assert log + [] == log;
  }

  lemma DeletionAppends(s: Logos.State, c: nat, pc: Logos.Client, lenient: bool, log: seq<Event>)
    requires s.log == [] && pc.Reading? && pc.current.Some?
    ensures Appends(Logos.Deletion(s, c, pc, lenient), Logos.Deletion(s.(log := log), c, pc, lenient), log, s.orgs)
  {
    hide Logos.Released, Logos.Releases;
    ReleasedAside(s, pc.current, lenient, log);
    assert log + [] == log;
  }

  lemma LogoKeeps(s: State, step: Logos.Step, log: seq<Event>)
    requires Rows(s) && Replays(s, log) && Enabled(s, Logo(step))
    ensures var t := RunLogo(s, step); Rows(t) && Adds(s, t) && Replays(t, log + Added(s, t))
  {
    hide Organizations.Sound, Organizations.Replay, Logos.Replay, DR.Replay, Logos.Core, Logos.Shows, DR.Agree, DocumentRuns.Owned,
         DocumentRuns.Known, DocumentRuns.BegunAtHome, Documents.Sound, Logos.Next, Adds, Added;
    var none, l := s.logos.(log := []), s.logos.(log := log);
    Logos.LogAside(s.logos, []);
    Logos.LogAside(s.logos, log);
    LogoAppends(none, step, log);
    assert none.(log := log) == l;
    Logos.NextKeepsCore(none, step);
    LogoRuns.NextKeepsShows(l, step);
    var u := Logos.Next(true, none, step);
    if u.log == [] {
      assert log + [] == log && s.log + [] == s.log;
      AddsNothing(s, RunLogo(s, step));
    } else {
      var e := u.log[0];
      assert u.log == [e];
      ReplaysNext(log, e);
      AddsOne(s, RunLogo(s, step), e);
    }
  }

  // ---- Documents ----

  lemma DocumentShape(h: Hierarchy, c: Documents.Command)
    requires Documents.Run(h, c).Committed?
    ensures Documents.Run(h, c).event.Some? ==> OfDocuments(Documents.Run(h, c).event.value)
    ensures forall o :: o in Documents.Run(h, c).after.roots ==> o in h.roots || (c.EnsureRoot? && c.org == o && c.stands)
  {
    hide Scope, FileScope, WithinRoot, Occupied, DirectoryNamed, FileNamed, Within;
  }

  lemma DocumentKeeps(s: State, c: Documents.Command, log: seq<Event>)
    requires Rows(s) && Replays(s, log) && (c.EnsureRoot? ==> c.stands == (c.org in s.table))
    requires DR.Allowed(s.docs.rows, DR.Replay(log), c)
    ensures var t := RunDocument(s, c); Rows(t) && Adds(s, t) && Replays(t, log + Added(s, t))
  {
    hide Organizations.Sound, Organizations.Replay, Logos.Replay, DR.Replay, Logos.Core, Logos.Shows, DR.Agree, DocumentRuns.Owned,
         DocumentRuns.Known, DocumentRuns.BegunAtHome, Documents.Sound, Documents.Run, DR.Allowed, Adds, Added;
    var d := s.docs.(log := log);
    DocumentRuns.NextKeepsInv(d, c);
    var t := RunDocument(s, c);
    assert log + [] == log && s.log + [] == s.log;
    if DocumentRuns.Enabled(d, c) && Documents.Run(d.rows, c).Committed? {
      DocumentShape(d.rows, c);
      if Documents.Run(d.rows, c).event.Some? {
        var e := Documents.Run(d.rows, c).event.value;
        assert [] + [e] == [e];
        ReplaysNext(log, e);
        AddsOne(s, t, e);
      } else {
        AddsNothing(s, t);
      }
    } else {
      AddsNothing(s, t);
    }
  }

  // ---- The reset ----

  lemma EmptyIsSound(begun: map<FileId, Id>)
    ensures Organizations.Sound(map[]) && Documents.Sound(EMPTY) && DocumentRuns.BegunAtHome(EMPTY, begun)
  {
    assert Organizations.ParentsOf(map[]) == map[];
    assert ParentsIn(EMPTY) == map[];
  }

  lemma DroppedCore(l: Logos.State)
    requires Logos.Core(l) && !Busy(l)
    ensures Logos.Core(l.(orgs := {}, files := map[], images := map[]))
  {
    var l' := l.(orgs := {}, files := map[], images := map[]);
    forall c | c in l.clients
      ensures Logos.ObjectPut(l', l.clients[c]) && Logos.Hand(l', l.clients[c])
    {
    }
    Logos.CarriedCore(l, l');
  }

  lemma ResetReplays(log: seq<Event>, state: string)
    ensures Organizations.Replay(log + [StateReset(state)]) == map[]
    ensures Logos.Replay(log + [StateReset(state)]) == map[]
    ensures DR.Replay(log + [StateReset(state)]) == DR.NOTHING
  {
    hide Organizations.Replay, Logos.Replay, DR.Replay;
    Organizations.ReplayNext(log, StateReset(state));
    Logos.ReplayNext(log, StateReset(state));
    DR.ReplayNext(log, StateReset(state));
  }

  lemma NothingReplayed()
    ensures Organizations.Replay([]) == map[] && Logos.Replay([]) == map[] && DR.Replay([]) == DR.NOTHING
  {
  }

  /** Rows with nothing in them, whatever of the ids was used before. */
  ghost predicate Empty(s: State) {
    s.table == map[] && s.logos.images == map[] && s.docs.rows == EMPTY
  }

  lemma EmptyReplays(s: State, log: seq<Event>)
    requires Empty(s)
    requires Organizations.Replay(log) == map[] && Logos.Replay(log) == map[] && DR.Replay(log) == DR.NOTHING
    ensures Replays(s, log)
  {
    hide Organizations.Replay, Logos.Replay, DR.Replay, Within;
  }

  lemma DropKeeps(s: State, state: string)
    requires Inv(s) && !Busy(s.logos)
    ensures Inv(Next(s, Drop(state))) && Empty(Next(s, Drop(state)))
  {
    hide Organizations.Replay, Logos.Replay, DR.Replay, Logos.Core, Organizations.Sound, Documents.Sound, Busy, DocumentRuns.Owned,
         DocumentRuns.Known, DR.Agree, Logos.Shows, Replays;
    EmptyIsSound(s.docs.begun);
    DroppedCore(s.logos);
    NothingReplayed();
    EmptyReplays(Next(s, Drop(state)), []);
  }

  lemma CommitKeeps(s: State)
    requires Inv(s) && s.resetting.Some?
    ensures Inv(Next(s, CommitReset)) && Since(Next(s, CommitReset)) == Since(s)
  {
    hide Organizations.Replay, Logos.Replay, DR.Replay, Rows, Since;
    var t := Next(s, CommitReset);
    SinceReset(s, t, StateReset(s.resetting.value));
    RowsAside(s, t);
    hide DocumentRuns.Owned, DocumentRuns.Known, DR.Agree, Logos.Shows;
  }

  lemma SinceReset(s: State, t: State, e: Event)
    requires s.dropped == t.dropped <= |s.log| && t.log == s.log + [e] && e.StateReset?
    ensures Since(t) == Since(s)
  {
    assert t.log[t.dropped..] == s.log[s.dropped..] + [e];
    DomainNext(s.log[s.dropped..], e);
    hide Domain;
    assert Since(s) + [] == Since(s);
  }

  lemma RowsAside(s: State, t: State)
    requires Rows(s) && t.table == s.table && t.minted == s.minted && t.logos == s.logos && t.docs == s.docs
    ensures Rows(t)
  {
    hide Logos.Core, Organizations.Sound, Documents.Sound, DocumentRuns.BegunAtHome;
  }

  lemma PublishKeeps(s: State)
    requires Inv(s)
    ensures Inv(Next(s, Publish))
  {
    hide Organizations.Replay, Logos.Replay, DR.Replay, Logos.Core, Organizations.Sound, Documents.Sound;
  }

  lemma AddsKeepsOutbox(s: State, t: State)
    requires Outbox(s) && Adds(s, t)
    ensures Outbox(t) && Since(t) == Since(s) + Added(s, t)
  {
    SinceNext(s, t);
  }

  /** Every command, publish, drop, and reset event keeps the rows what the events since the last
      drop replay to. */
  lemma NextKeepsInv(s: State, step: Step)
    requires Inv(s)
    ensures Inv(Next(s, step))
  {
    hide Rows, Replays, RunOrganization, RunLogo, RunDocument, Busy, Organizations.Replay, Logos.Replay, DR.Replay,
         DR.Allowed, Since, Adds, Added, Outbox;
    if Enabled(s, step) {
      var log := Since(s);
      match step
      case Organization(c) =>
        OrganizationKeeps(s, c, log);
        AddsKeepsOutbox(s, RunOrganization(s, c));
      case Logo(l) =>
        LogoKeeps(s, l, log);
        AddsKeepsOutbox(s, RunLogo(s, l));
      case Document(c) =>
        DocumentKeeps(s, c, log);
        AddsKeepsOutbox(s, RunDocument(s, c));
      case Publish => PublishKeeps(s);
      case Drop(state) => if !Busy(s.logos) { DropKeeps(s, state); }
      case CommitReset => if s.resetting.Some? { CommitKeeps(s); }
    }
  }

  lemma {:induction false} RunsKeepInv(s: State, steps: seq<Step>)
    requires Inv(s)
    ensures Inv(Exec(s, steps))
    decreases |steps|
  {
    hide Inv, Next;
    if steps != [] {
      NextKeepsInv(s, steps[0]);
      RunsKeepInv(Next(s, steps[0]), steps[1..]);
    }
  }

  lemma InitialInv()
    ensures Inv(INITIAL) && Empty(INITIAL)
  {
    EmptyIsSound(map[]);
    NothingReplayed();
    hide Organizations.Sound, Organizations.Replay, Logos.Replay, DR.Replay, Sound, DocumentRuns.BegunAtHome;
    EmptyReplays(INITIAL, []);
    hide Replays;
  }

  /** What a consumer that has replayed the log sees of the rows. */
  ghost predicate Seen(s: State, log: seq<Event>) {
    && Organizations.Replay(log) == s.table
    && LogosSeen(s.logos.images, Logos.Replay(log))
    && DocumentRuns.Faithful(s.docs.rows, DR.Replay(log))
  }

  /** The organizations' active logos, and no others. */
  ghost predicate LogosSeen(images: map<FileId, Id>, copy: map<Id, FileId>) {
    forall f, org :: (f in images && images[f] == org) <==> (org in copy && copy[org] == f)
  }

  lemma ReplaysIsSeen(s: State, log: seq<Event>)
    requires Rows(s) && Replays(s, log)
    ensures Seen(s, log)
  {
    hide Organizations.Replay, Logos.Replay, DR.Replay, Organizations.Sound, Logos.Core, DocumentRuns.Faithful;
    DocumentRuns.InvIsFaithful(s.docs.(log := log));
  }

  /** Over every run of commands, refused ones, interleaved logo protocols, sweeps, publishes,
      drops that lose what was pending, and requests between a drop and its event: the commands'
      events since the last drop replay to what the rows show. */
  lemma AllRuns(steps: seq<Step>)
    ensures var s := Exec(INITIAL, steps); s.dropped <= s.published <= |s.log| && Seen(s, Domain(s.log[s.dropped..]))
  {
    hide Exec, Rows, Replays, Seen, Organizations.Replay, Logos.Replay, DR.Replay;
    InitialInv();
    RunsKeepInv(INITIAL, steps);
    ReplaysIsSeen(Exec(INITIAL, steps), Since(Exec(INITIAL, steps)));
  }

  // ---- Whether a reset's event makes a consumer right ----

  /** Directories under no root are none, and so are files. */
  lemma Rootless(h: Hierarchy)
    requires Sound(h) && h.roots == map[]
    ensures h == EMPTY
  {
    hide Unique;
    forall d | d in h.dirs
      ensures false
    {
      assert d in ParentsIn(h);
      var n: nat :| Up(ParentsIn(h), d, n) == TOP;
      var _ := TopOf(h, d, n);
    }
    assert h.dirs == map[];
    assert h.files.Keys == {};
  }

  lemma {:induction false} TopOf(h: Hierarchy, d: Id, n: nat) returns (x: Id)
    requires Referential(ParentsIn(h)) && d in h.dirs && Up(ParentsIn(h), d, n) == TOP
    ensures x in h.dirs && h.dirs[x].parent == TOP
    decreases n
  {
    x := d;
    assert ParentsIn(h)[d] == h.dirs[d].parent;
    if h.dirs[d].parent != TOP {
      x := TopOf(h, h.dirs[d].parent, n - 1);
    }
  }

  lemma NoImages(l: Logos.State)
    requires Logos.Core(l) && l.orgs == {}
    ensures l.images == map[]
  {
    hide Logos.Objects, Logos.Hands, Logos.Readers, Logos.Workers;
    assert l.images.Keys == {};
  }

  /** Where no organization stands nothing else does: each image's organization stands, each
      root's does, and everything lies under a root. */
  lemma WithoutOrganizations(s: State)
    requires Rows(s) && s.table == map[]
    ensures Empty(s)
  {
    hide Sound, DocumentRuns.BegunAtHome, Logos.Core, Organizations.Sound;
    NoImages(s.logos);
    assert s.docs.rows.roots.Keys == {};
    Rootless(s.docs.rows);
  }

  lemma DomainHasNoReset(log: seq<Event>)
    ensures forall i :: 0 <= i < |Domain(log)| ==> !Domain(log)[i].StateReset?
  {
  }

  /** In a reset's window nothing stands exactly where the events since the drop delete each
      organization they write. */
  lemma WindowIsUndone(s: State)
    requires Inv(s) && s.resetting.Some?
    ensures Empty(s) <==> Organizations.Undone(s.log[s.published..])
  {
    hide Rows, Organizations.Undone, Organizations.Replay, Logos.Replay, DR.Replay, DR.Agree, DocumentRuns.Owned, DocumentRuns.Known,
         Logos.Shows;
    DomainHasNoReset(s.log[s.dropped..]);
    hide Domain;
    Organizations.UndoneIsNothing(s.log[s.published..]);
    if s.table == map[] {
      WithoutOrganizations(s);
    }
  }

  /** The reset's event is right exactly then. */
  lemma CommitIsExact(s: State)
    requires Inv(s) && s.resetting.Some?
    ensures var t := Next(s, CommitReset);
            && (Seen(t, t.log) <==> Organizations.Undone(s.log[s.published..]))
            && (Organizations.Undone(s.log[s.published..]) ==> Caught(t))
  {
    hide Organizations.Undone, Organizations.Replay, Logos.Replay, DR.Replay, Rows, DR.Agree, DocumentRuns.Owned, DocumentRuns.Known,
         Logos.Shows, DocumentRuns.Faithful, Part, LogosSeen;
    var t := Next(s, CommitReset);
    CommitKeeps(s);
    WindowIsUndone(s);
    ResetReplays(s.log, s.resetting.value);
    if Empty(s) {
      EmptyReplays(t, t.log);
      ReplaysIsSeen(t, t.log);
      NothingIsPart(DR.Replay(Since(t)));
    } else if Seen(t, t.log) {
      WithoutOrganizations(s);
    }
  }

  /** After every run, the reset's event leaves a consumer seeing the rows as they are if and
      only if the events committed since its drop, the outbox past what is published, delete each
      organization they write. */
  lemma ResetIsExact(steps: seq<Step>)
    requires Exec(INITIAL, steps).resetting.Some?
    ensures var s := Exec(INITIAL, steps);
            var t := Next(s, CommitReset);
            s.published <= |s.log| && (Seen(t, t.log) <==> Organizations.Undone(s.log[s.published..]))
  {
    hide Exec, Rows, Replays, Seen, Organizations.Undone, Next;
    InitialInv();
    RunsKeepInv(INITIAL, steps);
    CommitIsExact(Exec(INITIAL, steps));
  }

  // ---- Runs that leave a consumer right throughout ----

  /** One copy's entries are all the other's too. */
  ghost predicate Part(a: DR.Copy, b: DR.Copy) {
    && (forall d :: d in a.dirs ==> d in b.dirs && b.dirs[d] == a.dirs[d])
    && (forall f :: f in a.files ==> f in b.files && b.files[f] == a.files[f])
  }

  lemma PartNext(a: DR.Copy, b: DR.Copy, e: Event)
    requires Part(a, b)
    ensures Part(DR.Apply(a, e), DR.Apply(b, e))
  {
  }

  lemma NothingIsPart(b: DR.Copy)
    ensures Part(DR.NOTHING, b)
  {
  }

  lemma PartAllows(h: Hierarchy, a: DR.Copy, b: DR.Copy, c: Documents.Command)
    requires Part(a, b) && DR.Allowed(h, b, c)
    ensures DR.Allowed(h, a, c)
  {
    hide DR.Inserted;
  }

  /** Between resets the whole outbox replays to the rows, and so shows no more than the events
      since the drop do. */
  ghost predicate Caught(s: State) {
    s.resetting.None? ==> Replays(s, s.log) && Part(DR.Replay(s.log), DR.Replay(Since(s)))
  }

  lemma AddsKeepsPart(s: State, t: State)
    requires Outbox(s) && Adds(s, t) && Part(DR.Replay(s.log), DR.Replay(Since(s)))
    ensures t.log == s.log + Added(s, t) && Part(DR.Replay(t.log), DR.Replay(Since(t)))
  {
    hide DR.Replay, Part, Since;
    SinceNext(s, t);
    if |t.log| > |s.log| {
      var e := t.log[|s.log|];
      assert Added(s, t) == [e];
      DR.ReplayNext(s.log, e);
      DR.ReplayNext(Since(s), e);
      PartNext(DR.Replay(s.log), DR.Replay(Since(s)), e);
    } else {
      assert t.log[|s.log|..] == [] && s.log + [] == s.log;
      assert Since(s) + [] == Since(s);
    }
  }

  lemma NextKeepsCaught(s: State, step: Step)
    requires Inv(s) && Caught(s) && !(step.CommitReset? && s.resetting.Some?)
    ensures Caught(Next(s, step))
  {
    hide Rows, Replays, RunOrganization, RunLogo, RunDocument, Busy, Organizations.Replay, Logos.Replay, DR.Replay,
         DR.Allowed, Since, Adds, Added, Outbox, Part;
    if Enabled(s, step) {
      match step
      case Organization(c) =>
        OrganizationKeeps(s, c, Since(s));
        AddsKeepCaught(s, RunOrganization(s, c));
        if s.resetting.None? { OrganizationKeeps(s, c, s.log); }
      case Logo(l) =>
        LogoKeeps(s, l, Since(s));
        AddsKeepCaught(s, RunLogo(s, l));
        if s.resetting.None? { LogoKeeps(s, l, s.log); }
      case Document(c) =>
        DocumentKeeps(s, c, Since(s));
        AddsKeepCaught(s, RunDocument(s, c));
        if s.resetting.None? {
          PartAllows(s.docs.rows, DR.Replay(s.log), DR.Replay(Since(s)), c);
          DocumentKeeps(s, c, s.log);
        }
      case Publish => PublishKeepsCaught(s);
      case Drop(state) =>
      case CommitReset =>
    }
  }

  lemma AddsKeepCaught(s: State, t: State)
    requires Outbox(s) && Adds(s, t) && Caught(s)
    ensures t.resetting == s.resetting
    ensures s.resetting.None? ==> t.log == s.log + Added(s, t) && Part(DR.Replay(t.log), DR.Replay(Since(t)))
  {
    hide DR.Replay, Part, Since, Replays;
    if s.resetting.None? {
      AddsKeepsPart(s, t);
    }
  }

  lemma PublishKeepsCaught(s: State)
    requires Inv(s) && Caught(s)
    ensures Caught(Next(s, Publish))
  {
    hide Organizations.Replay, Logos.Replay, DR.Replay, Part, DR.Agree, DocumentRuns.Owned, DocumentRuns.Known, Logos.Shows;
  }

  lemma InitialCaught()
    ensures Caught(INITIAL)
  {
    InitialInv();
  }

  /** Outside a reset's window a consumer of the published events and then the pending ones sees
      the rows as they are. */
  ghost predicate Right(s: State) {
    s.resetting.None? ==> Seen(s, s.log)
  }

  /** At every moment of a run. */
  ghost predicate AlwaysRight(s: State, steps: seq<Step>)
    decreases |steps|
  {
    Right(s) && (steps != [] ==> AlwaysRight(Next(s, steps[0]), steps[1..]))
  }

  /** A run in whose every reset, the commands that commit between its drop and its event delete
      each organization they write. */
  ghost predicate WindowsUndone(s: State, steps: seq<Step>)
    decreases |steps|
  {
    steps != [] ==>
      && (steps[0].CommitReset? && s.resetting.Some? && s.published <= |s.log| ==> Organizations.Undone(s.log[s.published..]))
      && WindowsUndone(Next(s, steps[0]), steps[1..])
  }

  lemma CaughtIsRight(s: State)
    requires Inv(s) && Caught(s)
    ensures Right(s)
  {
    hide Rows, Replays, Part, Seen, Outbox;
    if s.resetting.None? {
      ReplaysIsSeen(s, s.log);
    }
  }

  lemma PublishedWithin(s: State)
    requires Inv(s)
    ensures s.published <= |s.log|
  {
  }

  lemma {:induction false} RunsAreRight(s: State, steps: seq<Step>)
    requires Inv(s) && Caught(s)
    ensures AlwaysRight(s, steps) <==> WindowsUndone(s, steps)
    decreases |steps|
  {
    hide Inv, Next, Caught, Seen, Organizations.Undone;
    CaughtIsRight(s);
    if steps != [] {
      var step, t := steps[0], Next(s, steps[0]);
      NextKeepsInv(s, step);
      PublishedWithin(s);
      if step.CommitReset? && s.resetting.Some? {
        CommitIsExact(s);
        EndsWindow(s);
        if Organizations.Undone(s.log[s.published..]) {
          RunsAreRight(t, steps[1..]);
        }
      } else {
        NextKeepsCaught(s, step);
        RunsAreRight(t, steps[1..]);
      }
    }
  }

  lemma EndsWindow(s: State)
    requires s.resetting.Some?
    ensures Next(s, CommitReset).resetting.None?
  {
  }

  /** A run leaves a consumer right at every moment outside its resets' windows, however many
      events their drops lose, if and only if the commands that commit in each window delete each
      organization they write. */
  lemma RightIsExact(steps: seq<Step>)
    ensures AlwaysRight(INITIAL, steps) <==> WindowsUndone(INITIAL, steps)
  {
    InitialInv();
    InitialCaught();
    RunsAreRight(INITIAL, steps);
  }

  predicate Request(step: Step) { step.Organization? || step.Logo? || step.Document? }

  /** A run with no request, nor a step of one, between a drop and its event. */
  ghost predicate Gated(s: State, steps: seq<Step>)
    decreases |steps|
  {
    steps != [] ==> (s.resetting.Some? ==> !Request(steps[0])) && Gated(Next(s, steps[0]), steps[1..])
  }

  lemma {:induction false} GatedIsUndone(s: State, steps: seq<Step>)
    requires Inv(s) && (s.resetting.Some? ==> Empty(s)) && Gated(s, steps)
    ensures WindowsUndone(s, steps)
    decreases |steps|
  {
    hide Inv, Next, Empty, Organizations.Undone;
    if steps != [] {
      if s.resetting.Some? {
        WindowIsUndone(s);
      }
      NextKeepsInv(s, steps[0]);
      GatedNext(s, steps[0]);
      GatedIsUndone(Next(s, steps[0]), steps[1..]);
    }
  }

  lemma GatedNext(s: State, step: Step)
    requires s.resetting.Some? ==> Empty(s) && !Request(step)
    ensures Next(s, step).resetting.Some? ==> Empty(Next(s, step))
  {
    hide Enabled, Busy, Logos.Next, DocumentRuns.Next, Organizations.Run;
  }

  /** So a run with no request between a drop and its event leaves a consumer right. */
  lemma AllGatedRuns(steps: seq<Step>)
    requires Gated(INITIAL, steps)
    ensures AlwaysRight(INITIAL, steps)
  {
    hide AlwaysRight, WindowsUndone, Gated;
    InitialInv();
    GatedIsUndone(INITIAL, steps);
    RightIsExact(steps);
  }

  /** An organization created between the drop and the event is in the rows and in no consumer's
      copy. */
  lemma UngatedCreateIsLost()
    ensures var s := Exec(INITIAL, [Drop("empty"), Organization(Organizations.Create(1, TOP, "a", "A")), CommitReset]);
            s.resetting.None? && s.table.Keys == {1} && Organizations.Replay(s.log) == map[]
  {
    hide Next, Organizations.Replay, INITIAL;
    var a, b, c := Drop("empty"), Organization(Organizations.Create(1, TOP, "a", "A")), CommitReset;
    UngatedSteps();
    UngatedCommit(Next(Next(INITIAL, a), b), "empty");
    ExecThree(INITIAL, a, b, c);
  }

  lemma UngatedCommit(s: State, state: string)
    requires s.resetting == Some(state)
    ensures var t := Next(s, CommitReset);
            t.table == s.table && t.resetting.None? && Organizations.Replay(t.log) == map[]
  {
    ResetReplays(s.log, state);
    hide Organizations.Replay;
  }

  lemma ExecThree(s: State, a: Step, b: Step, c: Step)
    ensures Exec(s, [a, b, c]) == Next(Next(Next(s, a), b), c)
  {
    hide Next;
    assert [a, b, c][1..] == [b, c] && [b, c][1..] == [c] && [c][1..] == [];
    assert Exec(Next(Next(s, a), b), [c]) == Exec(Next(Next(Next(s, a), b), c), []);
  }

  lemma UngatedSteps()
    ensures var s1 := Next(INITIAL, Drop("empty"));
            var s2 := Next(s1, Organization(Organizations.Create(1, TOP, "a", "A")));
            s2.table.Keys == {1} && s2.resetting == Some("empty")
  {
    var s1 := Next(INITIAL, Drop("empty"));
    assert s1.table == map[] && s1.minted == {} && s1.resetting == Some("empty");
    assert Organizations.ValidCode("a");
    hide Organizations.ValidCode;
    assert Enabled(s1, Organization(Organizations.Create(1, TOP, "a", "A")));
  }
}
