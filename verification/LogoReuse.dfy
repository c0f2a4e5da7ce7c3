/** A seed under its fixed id, while clients that had a hand on the file it was are still under
    way: some run of their own steps undoes what it binds exactly where one of them endangers
    it. */
module LogoReuse {
  import opened Forest
  import opened Events
  import opened Logos
  import LogoRuns
  import LogoStore

  /** What every interleaving is to keep: the bindings and their objects, and events that show
      the active logos. */
  ghost predicate Promise(s: State) {
    Bindings(s) && Shows(s.images, Replay(s.log))
  }

  ghost predicate Breaks(s: State, steps: seq<Step>) {
    !Promise(Exec(true, s, steps))
  }

  // ---- The steps of a seed ----

  /** The seed has its row to write, or has found it complete and bound by nothing. */
  predicate Under(s: State, pc: Client, org: Id, f: FileId) {
    || (pc == Writing(org, f, true) && Is(s, f, Pending))
    || (Is(s, f, Available) && pc == Completed(org, f, s.files[f].version, BySeed(false)))
  }

  /** The seed under way, nobody's hold in the way of it or of any release. */
  ghost predicate Stage(s: State, c: nat, org: Id, f: FileId) {
    && c in s.clients && Under(s, s.clients[c], org, f) && f !in s.images && org in s.orgs && Bindings(s)
    && (forall d :: d in s.clients && Keeps(s.clients[d]).Some? ==>
          Keeps(s.clients[d]).value !in s.images && Keeps(s.clients[d]).value != f)
  }

  lemma Started(s: State, c: nat, org: Id, id: nat)
    requires Core(s) && c !in s.clients && org in s.orgs && !Seeding(s) && !Is(s, Fixed(id), Doomed) && Fixed(id) !in s.images
    ensures var t := Next(false, s, BeginSeed(c, org, id));
            && Stage(t, c, org, Fixed(id)) && t.images == s.images
            && (forall d :: d in s.clients ==> d in t.clients && t.clients[d] == s.clients[d])
  {
    var f, t := Fixed(id), Next(false, s, BeginSeed(c, org, id));
    assert f !in s.files ==> forall g :: g in t.images ==> g != f;
    forall d | d in s.clients && Keeps(s.clients[d]).Some?
      ensures Keeps(s.clients[d]).value !in s.images && Keeps(s.clients[d]).value != f
    {
      HandOf(s, d);
      assert !Seeds(s.clients[d]);
    }
  }

  /** The seed's last three steps bind the file. */
  lemma FoundLands(s: State, c: nat, org: Id, f: FileId, v: nat, stored: bool)
    requires c in s.clients && s.clients[c] == Completed(org, f, v, BySeed(stored)) && Is(s, f, Available)
    requires f !in s.images && org in s.orgs && !Bound(s.images, org)
    ensures Exec(true, s, [Hold(c), Read(c), Activate(c, false)])
         == s.(images := s.images[f := org], log := s.log + [LogoUploaded(f, org, v)], clients := s.clients[c := Finished])
  {
    hide Next, ActiveLogo, Bound;
    NoneActive(s, org);
    LogoRuns.ExecThree(true, s, Hold(c), Read(c), Activate(c, false));
    LogoStore.SeedHoldIs(s, c, org, f, v, stored);
    var s1 := Next(true, s, Hold(c));
    NoneActive(s1, org);
    LogoStore.SeedReadIs(s1, c, org, f, v, stored);
    var s2 := Next(true, s1, Read(c));
    LogoStore.SeedActivateIs(s2, c, org, f, v, stored);
    assert s2.clients[c := Finished] == s.clients[c := Finished];
  }

  lemma NoneActive(s: State, org: Id)
    requires !Bound(s.images, org)
    ensures ActiveLogo(s, org).None?
  {
  }

  lemma WritesFirst(s: State, c: nat, org: Id, f: FileId)
    requires c in s.clients && s.clients[c] == Writing(org, f, true) && Is(s, f, Pending)
    ensures var v := s.files[f].version + 1;
            Exec(true, s, [PutObject(c), Complete(c)])
            == s.(files := s.files[f := LogoFile(Available, v)], objects := s.objects + {f},
                  clients := s.clients[c := Completed(org, f, v, BySeed(true))])
  {
    hide Next;
    LogoRuns.ExecTwo(true, s, PutObject(c), Complete(c));
    LogoStore.PutObjectIs(s, c);
    var s1 := Next(true, s, PutObject(c));
    assert s1.clients == s.clients[c := Stored(org, f, true)];
    LogoStore.CompleteSeedIs(s1, c, org, f);
    var v := s.files[f].version + 1;
    assert s1.clients[c := Completed(org, f, v, BySeed(true))] == s.clients[c := Completed(org, f, v, BySeed(true))];
  }

  /** The file bound to the organization, and everything else as it was. */
  ghost predicate Landed(s: State, u: State, c: nat, org: Id, f: FileId) {
    && f in u.images && u.images[f] == org && Is(u, f, Available) && u.orgs == s.orgs
    && org in Replay(u.log) && Replay(u.log)[org] == f
    && (forall d :: d in s.clients && d != c ==> d in u.clients && u.clients[d] == s.clients[d])
    && (forall d :: d in u.clients ==> Keeps(u.clients[d]) != Some(f))
    && (forall g :: g in u.images && g != f ==> g in s.images && u.images[g] == s.images[g])
  }

  lemma Lands(s: State, c: nat, org: Id, f: FileId) returns (steps: seq<Step>)
    requires Stage(s, c, org, f) && !Bound(s.images, org)
    ensures Landed(s, Exec(true, s, steps), c, org, f)
  {
    hide Exec, Next, Replay, Bound;
    var last := [Hold(c), Read(c), Activate(c, false)];
    var t := s;
    if s.clients[c].Writing? {
      WritesFirst(s, c, org, f);
      t := Exec(true, s, [PutObject(c), Complete(c)]);
      FoundLands(t, c, org, f, t.files[f].version, true);
      LogoRuns.ExecAppend(true, s, [PutObject(c), Complete(c)], last);
      steps := [PutObject(c), Complete(c)] + last;
    } else {
      FoundLands(s, c, org, f, s.files[f].version, false);
      steps := last;
    }
    ReplayNext(t.log, LogoUploaded(f, org, t.files[f].version));
  }

  /** An organization's logo deleted by one more client, if it has one. */
  lemma Clears(s: State, c: nat, org: Id, f: FileId, o: Id) returns (steps: seq<Step>)
    requires Stage(s, c, org, f)
    ensures var t := Exec(true, s, steps);
            && Stage(t, c, org, f) && !Bound(t.images, o) && t.orgs == s.orgs
            && (forall d :: d in s.clients ==> d in t.clients && t.clients[d] == s.clients[d])
            && (forall g :: g in t.images ==> g in s.images && t.images[g] == s.images[g])
  {
    hide Exec, Next;
    if !Bound(s.images, o) {
      NoSteps(s);
      return [];
    }
    BeyondMax(s.clients.Keys);
    var e: nat :| e !in s.clients.Keys;
    var h := ActiveLogo(s, o).value;
    assert h in s.images && s.images[h] == o;
    steps := [BeginDelete(e, o), CommitDelete(e, false)];
    LogoRuns.ExecTwo(true, s, BeginDelete(e, o), CommitDelete(e, false));
    LogoStore.BeginDeleteIs(s, e, o);
    var s1 := Next(true, s, BeginDelete(e, o));
    NotHeldByAnother(s, s1, c, org, f, e, h);
    LogoStore.CommitDeleteIs(s1, e, o, h);
    Cleared(s, c, org, f, o, e, h, Next(true, s1, CommitDelete(e, false)));
  }

  lemma NoSteps(s: State)
    ensures Exec(true, s, []) == s
  {
  }

  lemma NotHeldByAnother(s: State, s1: State, c: nat, org: Id, f: FileId, e: nat, h: FileId)
    requires Stage(s, c, org, f) && h in s.images && (forall d :: d in s1.clients && d != e ==> d in s.clients && s1.clients[d] == s.clients[d])
    ensures !HeldByAnother(s1, e, h)
  {
  }

  lemma Cleared(s: State, c: nat, org: Id, f: FileId, o: Id, e: nat, h: FileId, t: State)
    requires Stage(s, c, org, f) && h in s.images && s.images[h] == o && e !in s.clients
    requires t.orgs == s.orgs && t.objects == s.objects && t.images == s.images - {h}
    requires t.files.Keys == s.files.Keys && forall g :: g in s.files && g != h ==> t.files[g] == s.files[g]
    requires t.clients == s.clients[e := Purging(h)]
    ensures Stage(t, c, org, f) && !Bound(t.images, o)
  {
    assert c != e && h != f;
    forall g | g in t.images
      ensures t.images[g] != o
    {
      assert g != h;
    }
  }

  /** Both: the organization's own logo deleted, if it has one, and the seed's then bound. */
  lemma ClearsAndLands(s: State, c: nat, org: Id, f: FileId) returns (steps: seq<Step>)
    requires Stage(s, c, org, f)
    ensures Landed(s, Exec(true, s, steps), c, org, f)
  {
    hide Exec, Stage, Bound, Replay;
    var clear := Clears(s, c, org, f, org);
    var t := Exec(true, s, clear);
    var land := Lands(t, c, org, f);
    LogoRuns.ExecAppend(true, s, clear, land);
    steps := clear + land;
  }

  // ---- What then undoes it ----

  /** Events that leave the organization a logo no image binds. */
  lemma LeftShown(images: map<FileId, Id>, copy: map<Id, FileId>, org: Id, f: FileId)
    requires org in copy && copy[org] == f && f !in images
    ensures !Shows(images, copy)
  {
  }

  lemma WipeUndoes(u: State, d: nat, f: FileId)
    requires d in u.clients && u.clients[d] == Purging(f) && f in u.images
    ensures !Promise(Next(true, u, Wipe(d)))
  {
    LogoStore.WipeIs(u, d);
    hide Next;
  }

  lemma DeleteUndoes(s: State, u: State, c: nat, org: Id, f: FileId, d: nat, o: Id)
    requires Landed(s, u, c, org, f) && d in u.clients && u.clients[d] == Reading(o, Some(f)) && o != org
    ensures !Promise(Next(true, u, CommitDelete(d, false)))
  {
    hide Replay, Next;
    LogoStore.CommitDeleteIs(u, d, o, f);
    var r := Released(u, Some(f));
    ReplayNext(u.log, LogoDeleted(f, o, r.files[f].version));
    LeftShown(r.images, Replay(u.log + [LogoDeleted(f, o, r.files[f].version)]), org, f);
  }

  lemma PutUndoes(s: State, u: State, c: nat, org: Id, f: FileId, d: nat, o: Id, g: FileId, v: nat)
    requires Landed(s, u, c, org, f) && d in u.clients && u.clients[d] == Seen(o, g, v, ByPut, Some(f)) && o != org
    requires o in u.orgs && g != f && g !in u.images && !Bound(u.images - {f}, o)
    ensures !Promise(Next(true, u, Activate(d, false)))
  {
    hide Replay, Bound;
    assert !HeldByAnother(u, d, f);
    var t := Next(true, u, Activate(d, false));
    assert t.images == (u.images - {f})[g := o] && t.log == u.log + [LogoUploaded(g, o, v)];
    hide Next;
    ReplayNext(u.log, LogoUploaded(g, o, v));
    LeftShown(t.images, Replay(t.log), org, f);
  }

  lemma AppendBreaks(s: State, steps: seq<Step>, last: Step)
    requires !Promise(Next(true, Exec(true, s, steps), last))
    ensures Breaks(s, steps + [last])
  {
    hide Exec, Next, Promise;
    LogoRuns.ExecAppend(true, s, steps, [last]);
    LogoRuns.ExecOne(true, Exec(true, s, steps), last);
  }

  lemma PurgedBreaks(s: State, c: nat, org: Id, f: FileId, d: nat) returns (steps: seq<Step>)
    requires Stage(s, c, org, f) && d in s.clients && s.clients[d] == Purging(f)
    ensures Breaks(s, steps)
  {
    hide Exec, Next, Promise, Breaks, Stage;
    StageIsSeed(s, c, org, f);
    var land := ClearsAndLands(s, c, org, f);
    WipeUndoes(Exec(true, s, land), d, f);
    AppendBreaks(s, land, Wipe(d));
    steps := land + [Wipe(d)];
  }

  lemma StageIsSeed(s: State, c: nat, org: Id, f: FileId)
    requires Stage(s, c, org, f)
    ensures c in s.clients && (s.clients[c].Writing? || s.clients[c].Completed?) && f !in s.images
  {
  }

  lemma ReadingBreaks(s: State, c: nat, org: Id, f: FileId, d: nat) returns (steps: seq<Step>)
    requires Stage(s, c, org, f) && d in s.clients && s.clients[d].Reading? && s.clients[d].current == Some(f) && s.clients[d].org != org
    ensures Breaks(s, steps)
  {
    hide Exec, Next, Promise, Breaks, Stage;
    StageIsSeed(s, c, org, f);
    var land := ClearsAndLands(s, c, org, f);
    DeleteUndoes(s, Exec(true, s, land), c, org, f, d, s.clients[d].org);
    AppendBreaks(s, land, CommitDelete(d, false));
    steps := land + [CommitDelete(d, false)];
  }

  /** The reader's own organization stands, if need be again, and has no other logo. */
  lemma MakesWay(s: State, c: nat, org: Id, f: FileId, o: Id) returns (steps: seq<Step>)
    requires Stage(s, c, org, f)
    ensures var t := Exec(true, s, steps);
            && Stage(t, c, org, f) && !Bound(t.images, o) && o in t.orgs
            && (forall d :: d in s.clients ==> d in t.clients && t.clients[d] == s.clients[d])
            && (forall g :: g in t.images ==> g in s.images)
  {
    hide Exec, Bound, Stage;
    var s1 := s.(orgs := s.orgs + {o});
    CreatesOrganization(s, o);
    StageGrows(s, c, org, f, o);
    var clear := Clears(s1, c, org, f, o);
    LogoRuns.ExecAppend(true, s, [CreateOrganization(o)], clear);
    steps := [CreateOrganization(o)] + clear;
  }

  lemma CreatesOrganization(s: State, o: Id)
    ensures Exec(true, s, [CreateOrganization(o)]) == s.(orgs := s.orgs + {o})
  {
    LogoRuns.ExecOne(true, s, CreateOrganization(o));
  }

  lemma StageGrows(s: State, c: nat, org: Id, f: FileId, o: Id)
    requires Stage(s, c, org, f)
    ensures Stage(s.(orgs := s.orgs + {o}), c, org, f)
  {
  }

  lemma SeenBreaks(s: State, c: nat, org: Id, f: FileId, d: nat) returns (steps: seq<Step>)
    requires Stage(s, c, org, f) && d in s.clients && s.clients[d].Seen? && s.clients[d].current == Some(f) && s.clients[d].org != org
    requires s.clients[d].writer == ByPut && s.clients[d].file != f && s.clients[d].file !in s.images
    ensures Breaks(s, steps)
  {
    hide Exec, Next, Promise, Breaks, Stage, Replay;
    StageIsSeed(s, c, org, f);
    var o := s.clients[d].org;
    var way := MakesWay(s, c, org, f, o);
    var t := Exec(true, s, way);
    var land := ClearsAndLands(t, c, org, f);
    var u := Exec(true, t, land);
    LogoRuns.ExecAppend(true, s, way, land);
    assert !Bound(u.images - {f}, o);
    PutUndoes(t, u, c, org, f, d, o, s.clients[d].file, s.clients[d].version);
    AppendBreaks(s, way + land, Activate(d, false));
    steps := way + land + [Activate(d, false)];
  }

  // ---- Exactly when ----

  lemma EndangeredBreaks(s: State, c: nat, org: Id, id: nat) returns (steps: seq<Step>)
    requires Inv(s) && c !in s.clients && org in s.orgs && !Seeding(s) && !Is(s, Fixed(id), Doomed)
    requires Endangered(s, org, Fixed(id))
    ensures Breaks(Next(false, s, BeginSeed(c, org, id)), steps)
  {
    var f := Fixed(id);
    hide Next, Stage, Breaks, Answered, Shows, Replay, Seeding;
    Started(s, c, org, id);
    var t := Next(false, s, BeginSeed(c, org, id));
    if f !in s.files && Purged(s, f) {
      var d :| d in s.clients && s.clients[d] == Purging(f);
      steps := PurgedBreaks(t, c, org, f, d);
    } else {
      var d :| d in s.clients && ReadBy(s.clients[d], f) && s.clients[d].org != org;
      if s.clients[d].Reading? {
        steps := ReadingBreaks(t, c, org, f, d);
      } else {
        SeenByPut(s, d);
        steps := SeenBreaks(t, c, org, f, d);
      }
    }
  }

  lemma SeenByPut(s: State, d: nat)
    requires Core(s) && !Seeding(s) && d in s.clients && s.clients[d].Seen?
    ensures s.clients[d].writer == ByPut && s.clients[d].file !in s.images
    ensures s.clients[d].current.Some? ==> s.clients[d].current.value != s.clients[d].file
  {
    HandOf(s, d);
    assert !Seeds(s.clients[d]);
  }

  lemma SafeKeeps(s: State, c: nat, org: Id, id: nat, steps: seq<Step>)
    requires Inv(s) && !Endangered(s, org, Fixed(id))
    ensures !Breaks(Next(false, s, BeginSeed(c, org, id)), steps)
  {
    hide Inv, Endangered, Seeding, Exec, Replay, Shows;
    assert Next(false, s, BeginSeed(c, org, id)) == Next(true, s, BeginSeed(c, org, id));
    LogoRuns.NextKeepsInv(s, BeginSeed(c, org, id));
    LogoRuns.RunsKeepInv(Next(true, s, BeginSeed(c, org, id)), steps);
    InvIsPromise(Exec(true, Next(true, s, BeginSeed(c, org, id)), steps));
  }

  lemma InvIsPromise(s: State)
    requires Inv(s)
    ensures Promise(s)
  {
  }

  /** Wherever a seed starts on a file whose delete is not under way, some run of the clients'
      own steps then breaks the promise if and only if, as it starts, a removal of the file it
      was has yet to reach the object store, or another organization's client read that file as
      its active logo and has yet to release it. */
  lemma ReuseIsExact(s: State, c: nat, org: Id, id: nat)
    requires Inv(s) && c !in s.clients && org in s.orgs && !Seeding(s) && !Is(s, Fixed(id), Doomed)
    ensures (exists steps :: Breaks(Next(false, s, BeginSeed(c, org, id)), steps)) <==> Endangered(s, org, Fixed(id))
  {
    hide Inv, Endangered, Seeding, Breaks, Next;
    if Endangered(s, org, Fixed(id)) {
      var steps := EndangeredBreaks(s, c, org, id);
      assert Breaks(Next(false, s, BeginSeed(c, org, id)), steps);
    } else {
      forall steps
        ensures !Breaks(Next(false, s, BeginSeed(c, org, id)), steps)
      {
        SafeKeeps(s, c, org, id, steps);
      }
    }
  }

  // ---- A run that loses an object ----

  /** A seeded logo; its deletion, whose own purge is slow, while a sweep removes object and
      row; the seed again; and the slow purge. */
  const LOGO := Fixed(5)
  const SEEDED := [CreateOrganization(7), BeginSeed(1, 7, 5)]
  const BOUND := [PutObject(1), Complete(1), Hold(1), Read(1), Activate(1, false)]
  const REMOVED := [BeginDelete(2, 7), CommitDelete(2, false), SweepClaim(3, LOGO), Wipe(3), Erase(3)]
  const AGAIN := [BeginSeed(4, 7, 5)]
  const REBOUND := [PutObject(4), Complete(4), Hold(4), Read(4), Activate(4, false)]

  predicate NoSeedBegins(steps: seq<Step>) {
    forall i :: 0 <= i < |steps| ==> !steps[i].BeginSeed?
  }

  lemma {:induction false} Unguarded(s: State, steps: seq<Step>)
    requires NoSeedBegins(steps)
    ensures Exec(false, s, steps) == Exec(true, s, steps)
    decreases |steps|
  {
    if steps != [] {
      assert Next(false, s, steps[0]) == Next(true, s, steps[0]);
      hide Next;
      Unguarded(Next(true, s, steps[0]), steps[1..]);
    }
  }

  lemma FiveBind(s: State, c: nat, org: Id, f: FileId)
    requires c in s.clients && s.clients[c] == Writing(org, f, true) && Is(s, f, Pending)
    requires f !in s.images && org in s.orgs && !Bound(s.images, org)
    ensures var v := s.files[f].version + 1;
            Exec(true, s, [PutObject(c), Complete(c), Hold(c), Read(c), Activate(c, false)])
            == s.(files := s.files[f := LogoFile(Available, v)], objects := s.objects + {f}, images := s.images[f := org],
                  log := s.log + [LogoUploaded(f, org, v)], clients := s.clients[c := Finished])
  {
    hide Exec, Bound;
    var first, last := [PutObject(c), Complete(c)], [Hold(c), Read(c), Activate(c, false)];
    WritesFirst(s, c, org, f);
    var t := Exec(true, s, first);
    FoundLands(t, c, org, f, s.files[f].version + 1, true);
    LogoRuns.ExecAppend(true, s, first, last);
    assert first + last == [PutObject(c), Complete(c), Hold(c), Read(c), Activate(c, false)];
    assert t.clients[c := Finished] == s.clients[c := Finished];
  }

  const WRITING := State({7}, map[LOGO := LogoFile(Pending, 1)], {}, map[], map[1 := Writing(7, LOGO, true)], [])
  const ACTIVE := State({7}, map[LOGO := LogoFile(Available, 2)], {LOGO}, map[LOGO := 7], map[1 := Finished], [LogoUploaded(LOGO, 7, 2)])
  const ERASED := State({7}, map[], {}, map[], map[1 := Finished, 2 := Purging(LOGO), 3 := Finished],
                        [LogoUploaded(LOGO, 7, 2), LogoDeleted(LOGO, 7, 3)])
  const REWRITING := ERASED.(files := map[LOGO := LogoFile(Pending, 1)], clients := ERASED.clients[4 := Writing(7, LOGO, true)])

  lemma SeedBegins()
    ensures Exec(false, EMPTY, SEEDED) == WRITING
  {
    hide Exec;
    LogoRuns.ExecTwo(false, EMPTY, SEEDED[0], SEEDED[1]);
    var s1 := EMPTY.(orgs := {7});
    assert Next(false, EMPTY, SEEDED[0]) == s1;
    assert !Seeding(s1);
  }

  lemma SeedsOnce()
    ensures Exec(false, EMPTY, SEEDED + BOUND) == ACTIVE
  {
    hide Exec, Next;
    SeedBegins();
    LogoRuns.ExecAppend(false, EMPTY, SEEDED, BOUND);
    Unguarded(WRITING, BOUND);
    FiveBind(WRITING, 1, 7, LOGO);
  }

  lemma DeletesIt()
    ensures Exec(false, ACTIVE, REMOVED[..2])
         == ACTIVE.(files := map[LOGO := LogoFile(Doomed, 3)], images := map[], clients := map[1 := Finished, 2 := Purging(LOGO)],
                    log := ERASED.log)
  {
    assert REMOVED[..2] == [REMOVED[0], REMOVED[1]];
    LogoRuns.ExecTwo(false, ACTIVE, REMOVED[0], REMOVED[1]);
    assert LOGO in ACTIVE.images && ACTIVE.images[LOGO] == 7;
    assert ActiveLogo(ACTIVE, 7) == Some(LOGO);
    var s1 := Next(false, ACTIVE, REMOVED[0]);
    assert s1 == ACTIVE.(clients := map[1 := Finished, 2 := Reading(7, Some(LOGO))]);
    assert !HeldByAnother(s1, 2, LOGO);
    assert ACTIVE.images - {LOGO} == map[];
    assert ERASED.log == ACTIVE.log + [LogoDeleted(LOGO, 7, 3)];
  }

  lemma SweepsIt(s: State)
    requires s == ACTIVE.(files := map[LOGO := LogoFile(Doomed, 3)], images := map[], clients := map[1 := Finished, 2 := Purging(LOGO)],
                          log := ERASED.log)
    ensures Exec(false, s, REMOVED[2..]) == ERASED
  {
    assert REMOVED[2..] == [REMOVED[2], REMOVED[3], REMOVED[4]];
    hide Exec;
    LogoRuns.ExecThree(false, s, REMOVED[2], REMOVED[3], REMOVED[4]);
    var s1 := Claims(s, 3);
    assert s1.clients == map[1 := Finished, 2 := Purging(LOGO), 3 := Purging(LOGO)];
    LogoStore.WipeIs(s1, 3);
    var s2 := Next(true, s1, Wipe(3));
    assert s2.clients == map[1 := Finished, 2 := Purging(LOGO), 3 := Erasing(LOGO)];
    LogoStore.EraseIs(s2, 3);
    hide Next;
    assert map[LOGO := LogoFile(Doomed, 3)] - {LOGO} == map[];
    assert {LOGO} - {LOGO} == {};
    assert Next(true, s2, Erase(3)).clients == ERASED.clients;
    Unguarded(s1, [Wipe(3), Erase(3)]);
    LogoRuns.ExecTwo(false, s1, Wipe(3), Erase(3));
    LogoRuns.ExecTwo(true, s1, Wipe(3), Erase(3));
  }

  lemma Claims(s: State, c: nat) returns (t: State)
    requires c !in s.clients && Is(s, LOGO, Doomed)
    ensures t == Next(false, s, SweepClaim(c, LOGO)) == To(s, c, Purging(LOGO))
  {
    t := Next(false, s, SweepClaim(c, LOGO));
  }

  lemma SeedsAgain()
    ensures Exec(false, ERASED, AGAIN + REBOUND).images == map[LOGO := 7]
    ensures 2 in Exec(false, ERASED, AGAIN + REBOUND).clients && Exec(false, ERASED, AGAIN + REBOUND).clients[2] == Purging(LOGO)
  {
    LogoRuns.ExecOne(false, ERASED, AGAIN[0]);
    assert !Seeding(ERASED);
    assert Exec(false, ERASED, AGAIN) == REWRITING;
    hide Exec, Next;
    LogoRuns.ExecAppend(false, ERASED, AGAIN, REBOUND);
    Unguarded(REWRITING, REBOUND);
    FiveBind(REWRITING, 4, 7, LOGO);
  }

  /** From an empty service: the slow purge takes the object from under the logo seeded again. */
  lemma WithoutGuardAnObjectIsLost()
    ensures var s := Exec(false, EMPTY, SEEDED + BOUND + REMOVED + (AGAIN + REBOUND) + [Wipe(2)]);
            s.images == map[LOGO := 7] && LOGO !in s.objects
  {
    hide Exec, Next, ACTIVE, ERASED;
    SeedsOnce();
    DeletesIt();
    SweepsIt(Exec(false, ACTIVE, REMOVED[..2]));
    assert REMOVED == REMOVED[..2] + REMOVED[2..];
    LogoRuns.ExecAppend(false, ACTIVE, REMOVED[..2], REMOVED[2..]);
    SeedsAgain();
    LogoRuns.ExecAppend(false, EMPTY, SEEDED + BOUND, REMOVED);
    LogoRuns.ExecAppend(false, EMPTY, SEEDED + BOUND + REMOVED, AGAIN + REBOUND);
    LogoRuns.ExecAppend(false, EMPTY, SEEDED + BOUND + REMOVED + (AGAIN + REBOUND), [Wipe(2)]);
    var s := Exec(false, ERASED, AGAIN + REBOUND);
    Wipes(s);
  }

  lemma Wipes(s: State)
    requires 2 in s.clients && s.clients[2] == Purging(LOGO)
    ensures Exec(false, s, [Wipe(2)]).images == s.images && LOGO !in Exec(false, s, [Wipe(2)]).objects
  {
    LogoRuns.ExecOne(false, s, Wipe(2));
  }
}
