/** Whole runs of the logo protocols: who answers for each available file, and what the events
    replay to. */
module LogoRuns {
  import opened Forest
  import opened Events
  import opened Logos

  // ---- Who answers for a file ----

  predicate StepsOn(step: Step, d: nat) {
    (step.Hold? || step.Read? || step.Activate? || step.Remove?) && step.c == d
  }

  lemma AnswererStays(s: State, step: Step, d: nat, f: FileId)
    requires d in s.clients && AnswersFor(s.clients[d], f) && !StepsOn(step, d)
    ensures d in Next(true, s, step).clients && Next(true, s, step).clients[d] == s.clients[d]
  {
    hide Mentioned, Seeding, Endangered, HeldByAnother, Activation, Deletion, ReadActive, ActiveLogo, Bound;
    match step
    case Activate(c, lenient) => if c in s.clients && s.clients[c].Seen? { CommitsOwn(s, c, d, lenient); }
    case CommitDelete(c, lenient) => if c in s.clients && s.clients[c].Reading? && s.clients[c].current.Some? { DeletesOwn(s, c, d, lenient); }
    case _ =>
  }

  lemma CommitsOwn(s: State, c: nat, d: nat, lenient: bool)
    requires c in s.clients && s.clients[c].Seen? && d in s.clients && d != c
    ensures d in Activation(s, c, s.clients[c], lenient).clients && Activation(s, c, s.clients[c], lenient).clients[d] == s.clients[d]
  {
    hide Bound, Releases, Rejected;
  }

  lemma DeletesOwn(s: State, c: nat, d: nat, lenient: bool)
    requires c in s.clients && s.clients[c].Reading? && s.clients[c].current.Some? && d in s.clients && d != c
    ensures d in Deletion(s, c, s.clients[c], lenient).clients && Deletion(s, c, s.clients[c], lenient).clients[d] == s.clients[d]
  {
    hide Releases;
  }

  lemma AnswererSteps(s: State, step: Step, d: nat, f: FileId)
    requires d in s.clients && AnswersFor(s.clients[d], f) && StepsOn(step, d)
    requires Is(s, f, Available) && f !in s.images
    ensures var s' := Next(true, s, step);
            Is(s', f, Available) && f !in s'.images ==> d in s'.clients && AnswersFor(s'.clients[d], f)
  {
    ActiveIsBound(s);
    hide HeldByAnother, Bound, ActiveLogo;
  }

  lemma ActiveIsBound(s: State)
    ensures forall org :: ActiveLogo(s, org).Some? ==> ActiveLogo(s, org).value in s.images
  {
  }

  lemma AnswererMoves(s: State, step: Step, d: nat, f: FileId)
    requires Core(s) && d in s.clients && AnswersFor(s.clients[d], f) && Is(s, f, Available)
    requires f !in s.images
    ensures var s' := Next(true, s, step);
            Is(s', f, Available) && f !in s'.images ==> d in s'.clients && AnswersFor(s'.clients[d], f)
  {
    hide Core, Next, AnswersFor, Is, StepsOn, Hand;
    HandOf(s, d);
    if StepsOn(step, d) {
      AnswererSteps(s, step, d, f);
    } else {
      AnswererStays(s, step, d, f);
    }
  }

  /** Only a completion makes a row available. */
  lemma OnlyCompletions(s: State, step: Step, f: FileId)
    requires !Is(s, f, Available) && Is(Next(true, s, step), f, Available)
    ensures step.Complete? && step.c in s.clients && s.clients[step.c].Stored? && s.clients[step.c].file == f
    ensures Is(s, f, Pending)
  {
    hide Mentioned, Seeding, HeldByAnother, ActiveLogo, Bound, Releases, Rejected, ReadActive;
  }

  /** A file released is no longer available. */
  lemma UnboundIsDoomed(s: State, step: Step, f: FileId)
    requires f in s.images && f !in Next(true, s, step).images
    ensures !Is(Next(true, s, step), f, Available)
  {
    hide Mentioned, Seeding, HeldByAnother, ActiveLogo, Bound, Releases, Rejected, ReadActive;
  }

  lemma NewlyAvailable(s: State, step: Step, f: FileId)
    requires Core(s) && !(Is(s, f, Available) && f !in s.images)
    requires Is(Next(true, s, step), f, Available) && f !in Next(true, s, step).images
    ensures step.Complete? && step.c in Next(true, s, step).clients
    ensures AnswersFor(Next(true, s, step).clients[step.c], f)
  {
    if f in s.images {
      UnboundIsDoomed(s, step, f);
    } else {
      OnlyCompletions(s, step, f);
      HandOf(s, step.c);
      hide Core, Hand;
    }
  }

  lemma NextKeepsAnswered(s: State, step: Step)
    requires Core(s) && Answered(s)
    ensures Answered(Next(true, s, step))
  {
    var s' := Next(true, s, step);
    hide Core, Next, AnswersFor, Is;
    forall f: FileId | Is(s', f, Available) && f !in s'.images
      ensures exists c :: c in s'.clients && AnswersFor(s'.clients[c], f)
    {
      if Is(s, f, Available) && f !in s.images {
        var d :| d in s.clients && AnswersFor(s.clients[d], f);
        AnswererMoves(s, step, d, f);
      } else {
        NewlyAvailable(s, step, f);
      }
    }
  }

  // ---- The version each event carries ----

  /** A client that holds a completion's version holds its file's, while the file is available. */
  predicate DatedAt(s: State, pc: Client) {
    (pc.Completed? || pc.Held? || pc.Seen?) && Is(s, pc.file, Available) ==> s.files[pc.file].version == pc.version
  }

  ghost predicate Dated(s: State) {
    forall c :: c in s.clients ==> DatedAt(s, s.clients[c])
  }

  /** A file's row keeps its version while it is available. */
  lemma AvailableKeepsVersion(s: State, step: Step, f: FileId)
    requires Is(s, f, Available) && Is(Next(true, s, step), f, Available)
    ensures Next(true, s, step).files[f] == s.files[f]
  {
    hide Mentioned, Seeding, Endangered, HeldByAnother, ActiveLogo, Bound, Releases, Rejected, ReadActive;
  }

  predicate Gives(step: Step) {
    step.Complete? || step.Hold? || step.Read? || step.BeginSeed?
  }

  /** Where a client's own step leaves it holding a version, it is its file's. */
  lemma OwnStepIsDated(s: State, step: Step, d: nat)
    requires d in Next(true, s, step).clients && (d in s.clients ==> Next(true, s, step).clients[d] != s.clients[d] && DatedAt(s, s.clients[d]))
    ensures DatedAt(Next(true, s, step), Next(true, s, step).clients[d])
  {
    hide Next, DatedAt;
    if Gives(step) {
      VersionGiven(s, step, d);
    } else {
      NoVersionGiven(s, step, d);
    }
  }

  lemma VersionGiven(s: State, step: Step, d: nat)
    requires Gives(step) && d in Next(true, s, step).clients
    requires d in s.clients ==> Next(true, s, step).clients[d] != s.clients[d] && DatedAt(s, s.clients[d])
    ensures DatedAt(Next(true, s, step), Next(true, s, step).clients[d])
  {
    hide Mentioned, Seeding, Endangered, HeldByAnother, ActiveLogo, Activation, Deletion;
  }

  lemma NoVersionGiven(s: State, step: Step, d: nat)
    requires !Gives(step) && d in Next(true, s, step).clients && (d in s.clients ==> Next(true, s, step).clients[d] != s.clients[d])
    ensures DatedAt(Next(true, s, step), Next(true, s, step).clients[d])
  {
    hide Mentioned, Seeding, Endangered, HeldByAnother, ActiveLogo, Activation, Deletion, StartSeed, Finish, ReadActive;
    match step
    case Activate(c, lenient) => if c in s.clients && s.clients[c].Seen? { ActivationEnds(s, c, lenient); }
    case CommitDelete(c, lenient) => if c in s.clients && s.clients[c].Reading? && s.clients[c].current.Some? { DeletionEnds(s, c, lenient); }
    case _ =>
  }

  /** An activation or a deletion changes no client but its own, which holds no version after it. */
  lemma ActivationEnds(s: State, c: nat, lenient: bool)
    requires c in s.clients && s.clients[c].Seen?
    ensures var t := Activation(s, c, s.clients[c], lenient); t.clients.Keys == s.clients.Keys && DatedAt(t, t.clients[c])
    ensures forall d :: d in s.clients && d != c ==> Activation(s, c, s.clients[c], lenient).clients[d] == s.clients[d]
  {
    hide Bound, Releases;
  }

  lemma DeletionEnds(s: State, c: nat, lenient: bool)
    requires c in s.clients && s.clients[c].Reading? && s.clients[c].current.Some?
    ensures var t := Deletion(s, c, s.clients[c], lenient); t.clients.Keys == s.clients.Keys && DatedAt(t, t.clients[c])
    ensures forall d :: d in s.clients && d != c ==> Deletion(s, c, s.clients[c], lenient).clients[d] == s.clients[d]
  {
    hide Releases;
  }

  /** A file one client holds complete no other is completing. */
  lemma OnlyOneWorks(s: State, a: nat, b: nat, f: FileId)
    requires Core(s) && a in s.clients && b in s.clients && Work(s.clients[a]) == Some(f) == Work(s.clients[b])
    ensures a == b
  {
    assert a != b ==> Apart(s.clients[a], s.clients[b]);
  }

  lemma NextKeepsDated(s: State, step: Step)
    requires Core(s) && Dated(s)
    ensures Dated(Next(true, s, step))
  {
    hide Core, Next, Is;
    var s' := Next(true, s, step);
    forall d | d in s'.clients
      ensures DatedAt(s', s'.clients[d])
    {
      if d !in s.clients || s'.clients[d] != s.clients[d] {
        OwnStepIsDated(s, step, d);
      } else {
        OtherStepIsDated(s, step, d);
      }
    }
  }

  lemma OtherStepIsDated(s: State, step: Step, d: nat)
    requires Core(s) && d in s.clients && DatedAt(s, s.clients[d])
    requires d in Next(true, s, step).clients && Next(true, s, step).clients[d] == s.clients[d]
    ensures DatedAt(Next(true, s, step), s.clients[d])
  {
    hide Core, Next;
    var pc, s' := s.clients[d], Next(true, s, step);
    if (pc.Completed? || pc.Held? || pc.Seen?) && Is(s', pc.file, Available) {
      if Is(s, pc.file, Available) {
        AvailableKeepsVersion(s, step, pc.file);
      } else {
        OnlyCompletions(s, step, pc.file);
        OnlyOneWorks(s, step.c, d, pc.file);
      }
    }
  }

  /** A logo's event says what its transaction did: an upload's file is its organization's image,
      available at the version the event carries, and a deletion's file is bound by none and is
      deleting at that version. */
  ghost predicate Tells(s: State, e: Event) {
    match e
    case LogoUploaded(f, org, v) => f in s.images && s.images[f] == org && f in s.files && s.files[f] == LogoFile(Available, v)
    case LogoDeleted(f, org, v) => f !in s.images && f in s.files && s.files[f] == LogoFile(Doomed, v)
    case _ => false
  }

  lemma StepTells(s: State, step: Step)
    requires Core(s) && Dated(s)
    ensures var s' := Next(true, s, step); s'.log == s.log || exists e :: s'.log == s.log + [e] && Tells(s', e)
  {
    hide Core, Dated, Mentioned, Seeding, Endangered, HeldByAnother, ActiveLogo, Bound, Rejected, ReadActive, Activation, Deletion;
    match step
    case Activate(c, lenient) =>
      if c in s.clients && s.clients[c].Seen? {
        ActivationTells(s, c, lenient);
      }
    case CommitDelete(c, lenient) =>
      if c in s.clients && s.clients[c].Reading? && s.clients[c].current.Some? {
        DeletionTells(s, c, lenient);
      }
    case _ =>
  }

  lemma ActivationTells(s: State, c: nat, lenient: bool)
    requires Core(s) && Dated(s) && c in s.clients && s.clients[c].Seen?
    ensures var s' := Activation(s, c, s.clients[c], lenient); s'.log == s.log || exists e :: s'.log == s.log + [e] && Tells(s', e)
  {
    HandOf(s, c);
    assert DatedAt(s, s.clients[c]);
    hide Core, Dated, Bound, Rejected;
    var pc := s.clients[c];
    var s' := Activation(s, c, pc, lenient);
    if s'.log != s.log {
      assert Tells(s', LogoUploaded(pc.file, pc.org, pc.version));
    }
  }

  lemma DeletionTells(s: State, c: nat, lenient: bool)
    requires c in s.clients && s.clients[c].Reading? && s.clients[c].current.Some?
    ensures var s' := Deletion(s, c, s.clients[c], lenient); s'.log == s.log || exists e :: s'.log == s.log + [e] && Tells(s', e)
  {
    var pc := s.clients[c];
    var s' := Deletion(s, c, pc, lenient);
    if s'.log != s.log {
      var e := s'.log[|s.log|];
      assert Tells(s', e);
    }
  }

  lemma {:induction false} EveryEventTells(s: State, steps: seq<Step>, step: Step)
    requires Inv(s) && Dated(s)
    ensures Inv(Exec(true, s, steps)) && Dated(Exec(true, s, steps))
    ensures var t := Exec(true, s, steps);
            var t' := Next(true, t, step);
            t'.log == t.log || exists e :: t'.log == t.log + [e] && Tells(t', e)
    decreases |steps|
  {
    hide Core, Answered, Shows, Dated, Next, Replay, Tells;
    if steps == [] {
      StepTells(s, step);
    } else {
      NextKeepsDated(s, steps[0]);
      NextKeepsInv(s, steps[0]);
      EveryEventTells(Next(true, s, steps[0]), steps[1..], step);
    }
  }

  /** Over every interleaving each committed logo event says what its transaction did. */
  lemma AllEventsTell(steps: seq<Step>, step: Step)
    ensures var s := Exec(true, EMPTY, steps);
            var t := Next(true, s, step);
            t.log == s.log || exists e :: t.log == s.log + [e] && Tells(t, e)
  {
    hide Next, Exec, Tells;
    EveryEventTells(EMPTY, steps, step);
  }

  // ---- What the events show ----

  lemma ShowsAttach(images: map<FileId, Id>, copy: map<Id, FileId>, current: Option<FileId>, f: FileId, org: Id)
    requires Shows(images, copy) && (forall g, h :: g in images && h in images && images[g] == images[h] ==> g == h)
    requires f !in images
    requires var rest := if current.Some? then images - {current.value} else images; !Bound(rest, org)
    requires current.Some? && current.value in images ==> images[current.value] == org
    ensures var rest := if current.Some? then images - {current.value} else images;
            Shows(rest[f := org], copy[org := f])
  {
  }

  lemma ShowsDetach(images: map<FileId, Id>, copy: map<Id, FileId>, f: FileId, org: Id)
    requires Shows(images, copy) && (f in images ==> images[f] == org)
    ensures Shows(images - {f}, if org in copy && copy[org] == f then copy - {org} else copy)
  {
  }

  lemma ActivationShows(s: State, c: nat, lenient: bool)
    requires Core(s) && Shows(s.images, Replay(s.log)) && c in s.clients && s.clients[c].Seen?
    ensures var s' := Activation(s, c, s.clients[c], lenient); Shows(s'.images, Replay(s'.log))
  {
    hide Shows, Replay, Bound, Objects, Workers, Released, Releases, Hands, Rejected, Proper, ObjectPut;
    var pc := s.clients[c];
    HandOf(s, c);
    ReleasedImages(s, pc.current);
    var r := Released(s, pc.current);
    if !(pc.org !in s.orgs || !Releases(s, pc.current, lenient) || Bound(r.images, pc.org) || pc.file in s.images) {
      ShowsAttach(s.images, Replay(s.log), pc.current, pc.file, pc.org);
      ReplayNext(s.log, LogoUploaded(pc.file, pc.org, pc.version));
    }
  }

  lemma ReleasedImages(s: State, current: Option<FileId>)
    ensures Released(s, current).images == if current.Some? then s.images - {current.value} else s.images
  {
  }

  lemma DeletionShows(s: State, c: nat, lenient: bool)
    requires Core(s) && Shows(s.images, Replay(s.log)) && c in s.clients && s.clients[c].Reading?
    requires s.clients[c].current.Some?
    ensures var s' := Deletion(s, c, s.clients[c], lenient); Shows(s'.images, Replay(s'.log))
  {
    hide Core, Shows, Replay, Released, Releases, Proper, ObjectPut;
    var pc := s.clients[c];
    HandOf(s, c);
    ReleasedImages(s, pc.current);
    if Releases(s, pc.current, lenient) {
      var r := Released(s, pc.current);
      var f := pc.current.value;
      ShowsDetach(s.images, Replay(s.log), f, pc.org);
      ReplayNext(s.log, LogoDeleted(f, pc.org, if f in r.files then r.files[f].version else 0));
    }
  }

  lemma NextKeepsShows(s: State, step: Step)
    requires Core(s) && Shows(s.images, Replay(s.log))
    ensures var s' := Next(true, s, step); Shows(s'.images, Replay(s'.log))
  {
    hide Core, Shows, Replay, Mentioned, Seeding, HeldByAnother, Bound, ActiveLogo, Activation, Deletion;
    match step
    case Activate(c, lenient) =>
      if c in s.clients && s.clients[c].Seen? {
        ActivationShows(s, c, lenient);
      }
    case CommitDelete(c, lenient) =>
      if c in s.clients && s.clients[c].Reading? && s.clients[c].current.Some? {
        DeletionShows(s, c, lenient);
      }
    case _ =>
  }

  // ---- Runs ----

  lemma NextKeepsInv(s: State, step: Step)
    requires Inv(s)
    ensures Inv(Next(true, s, step))
  {
    hide Core, Answered, Shows, Next, Replay;
    NextKeepsCore(s, step);
    NextKeepsAnswered(s, step);
    NextKeepsShows(s, step);
  }

  lemma {:induction false} RunsKeepInv(s: State, steps: seq<Step>)
    requires Inv(s)
    ensures Inv(Exec(true, s, steps))
    decreases |steps|
  {
    hide Inv, Next;
    if steps != [] {
      NextKeepsInv(s, steps[0]);
      RunsKeepInv(Next(true, s, steps[0]), steps[1..]);
    }
  }

  /** Over every interleaving of PUTs, DELETEs, sweeps, and one seed: an organization has one
      active logo at most, a bound file is available with its object stored, and the events
      replay to the active logos. */
  lemma AllRuns(steps: seq<Step>)
    ensures var s := Exec(true, EMPTY, steps);
            && (forall f, g :: f in s.images && g in s.images && s.images[f] == s.images[g] ==> f == g)
            && (forall f :: f in s.images ==> Is(s, f, Available) && f in s.objects && s.images[f] in s.orgs)
            && (forall f, org :: (f in s.images && s.images[f] == org) <==> (org in Replay(s.log) && Replay(s.log)[org] == f))
  {
    hide Next, Exec;
    RunsKeepInv(EMPTY, steps);
  }

  /** A PUT or a seed in flight, from its completion to its activation's end. */
  predicate InFlight(pc: Client) {
    pc.Completed? || pc.Held? || pc.Seen? || pc.Refused?
  }

  /** No silent leak: once no activation is in flight, every available file is bound, unless the
      PUT or the seed that stored it answered with the failure of its own removal; and every
      other file is pending or deleting, which the stale reclaim reaches. */
  lemma NothingLeaks(steps: seq<Step>, f: FileId)
    requires var s := Exec(true, EMPTY, steps);
             && f in s.files && f !in s.images
             && forall c :: c in s.clients ==> !InFlight(s.clients[c])
    ensures var s := Exec(true, EMPTY, steps);
            || Is(s, f, Pending) || Is(s, f, Doomed)
            || exists c :: c in s.clients && s.clients[c] == Leaked(f)
  {
    var s := Exec(true, EMPTY, steps);
    RunsKeepInv(EMPTY, steps);
    hide Next, Exec, Core, Shows, Replay;
    if Is(s, f, Available) {
      var c :| c in s.clients && AnswersFor(s.clients[c], f);
      assert s.clients[c] == Leaked(f);
    }
  }

  // ---- Runs put together ----

  lemma {:induction false} ExecAppend(guarded: bool, s: State, a: seq<Step>, b: seq<Step>)
    ensures Exec(guarded, s, a + b) == Exec(guarded, Exec(guarded, s, a), b)
    decreases |a|
  {
    hide Next;
    if a == [] {
      assert a + b == b;
    } else {
      assert (a + b)[1..] == a[1..] + b;
      ExecAppend(guarded, Next(guarded, s, a[0]), a[1..], b);
    }
  }

  lemma ExecOne(guarded: bool, s: State, a: Step)
    ensures Exec(guarded, s, [a]) == Next(guarded, s, a)
  {
    hide Next;
    assert [a][1..] == [] && Exec(guarded, Next(guarded, s, a), []) == Next(guarded, s, a);
  }

  lemma ExecTwo(guarded: bool, s: State, a: Step, b: Step)
    ensures Exec(guarded, s, [a, b]) == Next(guarded, Next(guarded, s, a), b)
  {
    hide Next;
    assert [a, b][1..] == [b];
    ExecOne(guarded, Next(guarded, s, a), b);
  }

  lemma ExecThree(guarded: bool, s: State, a: Step, b: Step, c: Step)
    ensures Exec(guarded, s, [a, b, c]) == Next(guarded, Next(guarded, Next(guarded, s, a), b), c)
  {
    hide Next;
    assert [a, b, c][1..] == [b, c];
    ExecTwo(guarded, Next(guarded, s, a), b, c);
  }
}
