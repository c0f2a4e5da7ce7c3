/** The logo store's own methods, a PUT and a DELETE each run to its end, on the rows, the
    objects, and the images they change. Each part of them is one or more of the protocol's
    steps, so whatever every interleaving keeps, they keep. */
module LogoStore {
  import opened Forest
  import opened Events
  import opened Logos
  import LogoRuns

  datatype Outcome = Stored | NoRow | Unstored

  /** What a seed's row came to: its logo attached, left as it stands, or of no organization. */
  datatype SeedOutcome = Attached | Left | NoOrganization

  /** Nobody holds the organization's active logo, so its release waits for nobody. */
  ghost predicate Free(s: State, org: Id) {
    forall c :: c in s.clients && Keeps(s.clients[c]).Some? ==> !BoundTo(s.images, Keeps(s.clients[c]).value, org)
  }

  predicate BoundTo(images: map<FileId, Id>, f: FileId, org: Id) {
    f in images && images[f] == org
  }

  /** The images without the organization's own. */
  function Others(images: map<FileId, Id>, org: Id): map<FileId, Id> {
    map f | f in images && images[f] != org :: images[f]
  }

  /** The version a seed's write leaves its file at: a new one's completion's, the next of one
      resumed, and that of one found complete. */
  function StoredVersion(files: map<FileId, LogoFile>, f: FileId): nat {
    if f !in files then 2 else if files[f].status == Pending then files[f].version + 1 else files[f].version
  }

  /** The organization's logo retired: its file deleting at its next version, or gone with its
      object where the purge succeeds, and one event at that version. */
  ghost predicate Retires(s: State, t: State, org: Id, f: FileId, purges: bool)
    requires f in s.files
  {
    var v := s.files[f].version + 1;
    && t.log == s.log + [LogoDeleted(f, org, v)]
    && t.files == (if purges then s.files - {f} else s.files[f := LogoFile(Doomed, v)])
    && t.objects == if purges then s.objects - {f} else s.objects
  }

  /** The organization's logo replaced by f: bound and available with its one event, the logo it
      replaced deleting at its next version, or gone with its object where the purge succeeds, and
      every other file as it was. */
  ghost predicate Replaces(s: State, t: State, org: Id, f: FileId, purges: bool) {
    && t.images == Others(s.images, org)[f := org] && t.log == s.log + [LogoUploaded(f, org, 2)]
    && f in t.files && t.files[f] == LogoFile(Available, 2) && f in t.objects
    && (forall g :: g in s.files && BoundTo(s.images, g, org) ==>
          if purges then g !in t.files && g !in t.objects else g in t.files && t.files[g] == LogoFile(Doomed, s.files[g].version + 1))
    && (forall g :: g in s.files && !BoundTo(s.images, g, org) ==>
          g in t.files && t.files[g] == s.files[g] && (g in t.objects <==> g in s.objects))
    && (forall g :: g in t.files ==> g == f || g in s.files)
  }

  /** From the completed file on: bound, the logo replaced retired, and no other file touched. */
  ghost predicate Swaps(s: State, t: State, org: Id, f: FileId, replaced: Option<FileId>, purges: bool) {
    && t.images == Others(s.images, org)[f := org] && t.log == s.log + [LogoUploaded(f, org, 2)]
    && t.objects == (if replaced.Some? && purges then s.objects - {replaced.value} else s.objects)
    && t.files.Keys == (if replaced.Some? && purges then s.files.Keys - {replaced.value} else s.files.Keys)
    && forall g :: g in t.files ==> t.files[g] == if replaced == Some(g) then LogoFile(Doomed, s.files[g].version + 1) else s.files[g]
  }

  lemma ReplacedWhole(s: State, written: State, t: State, org: Id, f: FileId, replaced: Option<FileId>, purges: bool)
    requires f !in s.files && written.files == s.files[f := LogoFile(Available, 2)] && written.objects == s.objects + {f}
    requires written.images == s.images && written.log == s.log
    requires forall g :: BoundTo(s.images, g, org) <==> replaced == Some(g)
    requires replaced != Some(f) && Swaps(written, t, org, f, replaced, purges)
    ensures Replaces(s, t, org, f, purges)
  {
    hide BoundTo, Others;
  }

  class LogoStore {
    var orgs: set<Id>
    var files: map<FileId, LogoFile>
    var objects: set<FileId>
    var images: map<FileId, Id>
    var clients: map<nat, Client>
    var outbox: seq<Event>

    ghost function Now(): State
      reads this
    {
      State(orgs, files, objects, images, clients, outbox)
    }

    ghost predicate Valid()
      reads this
    {
      Inv(Now())
    }

    constructor (organizations: set<Id>)
      ensures Valid() && Now() == EMPTY.(orgs := organizations)
    {
      orgs, files, objects, images, clients, outbox := organizations, map[], {}, map[], map[], [];
    }

    /** The two-phase write: the pending row once the organization is read, the object, and
        the completion. */
    method Write(c: nat, org: Id, f: FileId)
      requires Valid() && c !in clients && f.Minted? && f !in files && !Mentioned(Now(), f) && org in orgs
      modifies this
      ensures Valid() && Now() == Exec(true, old(Now()), [BeginPut(c, org, f), PutObject(c), Complete(c)])
      ensures Now() == old(Now()).(files := old(files)[f := LogoFile(Available, 2)], objects := old(objects) + {f},
                                   clients := old(clients)[c := Completed(org, f, 2, ByPut)])
    {
      hide Inv, Mentioned;
      ghost var s := Now();
      WriteIsSteps(s, c, org, f);
      LogoRuns.RunsKeepInv(s, [BeginPut(c, org, f), PutObject(c), Complete(c)]);
      files := files[f := LogoFile(Pending, 1)];
      objects := objects + {f};
      var version := files[f].version + 1;
      files := files[f := LogoFile(Available, version)];
      clients := clients[c := Completed(org, f, version, ByPut)];
      assert files == s.files[f := LogoFile(Available, 2)];
    }

    /** A write whose put fails: its row is left deleting, and its object and row removed. */
    method Abandon(c: nat, org: Id, f: FileId)
      requires Valid() && c !in clients && f.Minted? && f !in files && !Mentioned(Now(), f) && org in orgs
      modifies this
      ensures Valid() && Now() == Exec(true, old(Now()), [BeginPut(c, org, f), FailPut(c), Wipe(c)] + [Erase(c)])
      ensures Now() == old(Now()).(objects := old(objects) - {f}, clients := old(clients)[c := Finished])
    {
      hide Inv, Mentioned;
      ghost var s := Now();
      AbandonIsSteps(s, c, org, f);
      LogoRuns.RunsKeepInv(s, [BeginPut(c, org, f), FailPut(c), Wipe(c)] + [Erase(c)]);
      files := files[f := LogoFile(Pending, 1)];
      files := files[f := LogoFile(Doomed, 1)];
      objects := objects - {f};
      files := files - {f};
      clients := clients[c := Finished];
      assert files == s.files;
    }

    /** The file the organization's active image binds, if there is one. */
    method FindActive(org: Id) returns (current: Option<FileId>)
      requires Valid()
      ensures current == ActiveLogo(Now(), org)
    {
      BoundOnce(Now());
      if f :| f in images && images[f] == org {
        return Some(f);
      }
      return None;
    }

    /** Removes the image binding the file and begins the file's delete. */
    method Release(f: FileId) returns (version: nat)
      requires f in files && files[f].status == Available
      modifies this`images, this`files
      ensures Now() == Released(old(Now()), Some(f))
      ensures version == old(files)[f].version + 1
      ensures files == old(files)[f := LogoFile(Doomed, version)] && images == old(images) - {f}
    {
      images := images - {f};
      version := files[f].version + 1;
      files := files[f := LogoFile(Doomed, version)];
    }

    /** One transaction: hold the completed file, release the logo it replaces, bind it, and
        emit for it alone. */
    method Activate(c: nat, org: Id, f: FileId) returns (replaced: Option<FileId>)
      requires Valid() && c in clients && clients[c] == Completed(org, f, 2, ByPut) && org in orgs
      requires f in files && files[f].status == Available && Free(Now(), org)
      modifies this
      ensures Valid() && Now() == Exec(true, old(Now()), [Hold(c), Read(c), Logos.Activate(c, false)])
      ensures replaced == ActiveLogo(old(Now()), org)
      ensures images == Others(old(images), org)[f := org] && outbox == old(outbox) + [LogoUploaded(f, org, 2)]
      ensures clients == old(clients)[c := if replaced.Some? then Purging(replaced.value) else Finished]
      ensures objects == old(objects) && orgs == old(orgs)
      ensures files.Keys == old(files).Keys && forall g :: g in files && replaced != Some(g) ==> files[g] == old(files)[g]
      ensures replaced.Some? ==> replaced.value in files && files[replaced.value] == LogoFile(Doomed, old(files)[replaced.value].version + 1)
    {
      hide Inv, Free, Exec;
      ghost var s := Now();
      ActivateIsSteps(s, c, org, f);
      LogoRuns.RunsKeepInv(s, [Hold(c), Read(c), Logos.Activate(c, false)]);
      replaced := FindActive(org);
      ActiveStands(s, org);
      OthersAre(s, org);
      if replaced.Some? {
        var _ := Release(replaced.value);
      }
      images := images[f := org];
      outbox := outbox + [LogoUploaded(f, org, 2)];
      clients := clients[c := if replaced.Some? then Purging(replaced.value) else Finished];
    }

    /** The delete's second phase: the object, then the row. */
    method Purge(c: nat)
      requires Valid() && c in clients && clients[c].Purging? && Is(Now(), clients[c].file, Doomed)
      modifies this
      ensures Valid() && Now() == Exec(true, old(Now()), [Wipe(c), Erase(c)])
      ensures var f := old(clients)[c].file;
              Now() == old(Now()).(objects := old(objects) - {f}, files := old(files) - {f}, clients := old(clients)[c := Finished])
    {
      hide Inv;
      ghost var s := Now();
      PurgeIsSteps(s, c);
      LogoRuns.RunsKeepInv(s, [Wipe(c), Erase(c)]);
      var f := clients[c].file;
      objects := objects - {f};
      files := files - {f};
      clients := clients[c := Finished];
    }

    /** Stores the upload as the organization's logo and makes it the active one. put says the
        object's put succeeds, and purges that the replaced logo's removal does, which the
        request does not depend on. */
    method PutLogo(c: nat, org: Id, f: FileId, put: bool, purges: bool) returns (r: Outcome)
      requires Valid() && c !in clients && f.Minted? && f !in files && !Mentioned(Now(), f) && Free(Now(), org)
      modifies this
      ensures Valid()
      ensures r == if org !in orgs then NoRow else if put then Outcome.Stored else Unstored
      ensures r != Outcome.Stored ==> images == old(images) && files == old(files) && outbox == old(outbox)
      ensures r == Outcome.Stored ==> Replaces(old(Now()), Now(), org, f, purges)
      ensures orgs == old(orgs)
    {
      if org !in orgs {
        return NoRow;
      }
      hide Inv, Exec, Mentioned, Replaces;
      ghost var s := Now();
      if !put {
        Abandon(c, org, f);
        return Unstored;
      }
      ActiveIsAll(s, org);
      BoundNotNew(s, f);
      Write(c, org, f);
      WrittenFree(s, c, org, f);
      ghost var t := Now();
      SameActive(s, t, org);
      hide Free, Bound, Others, ActiveLogo, Swaps;
      ghost var replaced := Swap(c, org, f, purges);
      ReplacedWhole(s, t, Now(), org, f, replaced, purges);
      return Outcome.Stored;
    }

    /** The activation of a completed file, and then the purge of the logo it replaced. */
    method Swap(c: nat, org: Id, f: FileId, purges: bool) returns (ghost replaced: Option<FileId>)
      requires Valid() && c in clients && clients[c] == Completed(org, f, 2, ByPut) && org in orgs
      requires f in files && files[f].status == Available && Free(Now(), org)
      modifies this
      ensures Valid() && orgs == old(orgs) && replaced == ActiveLogo(old(Now()), org)
      ensures Swaps(old(Now()), Now(), org, f, replaced, purges)
    {
      hide Inv, Exec, Free, ActiveLogo, Others;
      var released := Activate(c, org, f);
      replaced := released;
      if released.Some? && purges {
        Purge(c);
      }
    }

    /** Retires the organization's active logo: its image removed, its file's delete begun,
        and its event committed in one transaction, and then the purge. */
    method DeleteLogo(c: nat, org: Id, purges: bool) returns (r: Outcome)
      requires Valid() && c !in clients && Free(Now(), org)
      modifies this
      ensures Valid()
      ensures r == if Bound(old(images), org) then Outcome.Stored else NoRow
      ensures r == NoRow ==> Now() == old(Now())
      ensures r == Outcome.Stored ==>
                && images == Others(old(images), org)
                && orgs == old(orgs)
                && exists f :: f in old(images) && old(images)[f] == org && f in old(files) && Retires(old(Now()), Now(), org, f, purges)
    {
      hide Inv, Exec;
      ghost var s := Now();
      var current := FindActive(org);
      ActiveIsAll(s, org);
      ActiveStands(s, org);
      OthersAre(s, org);
      if current.None? {
        return NoRow;
      }
      var f := current.value;
      DeleteIsSteps(s, c, org);
      LogoRuns.RunsKeepInv(s, [BeginDelete(c, org), CommitDelete(c, false)]);
      var version := Release(f);
      outbox := outbox + [LogoDeleted(f, org, version)];
      clients := clients[c := Purging(f)];
      assert s.files[f := LogoFile(Doomed, version)] - {f} == s.files - {f};
      if purges {
        Purge(c);
      }
      return Outcome.Stored;
    }

    // ---- The seed ----

    /** The seed's retry-safe write under its fixed id: begun where no row has the id, resumed
        where one is pending, found where it is complete, and left where its delete is under
        way. */
    method StoreSeed(c: nat, org: Id, f: FileId) returns (stored: bool, ready: bool)
      requires Valid() && c !in clients && f.Fixed? && org in orgs && !Seeding(Now()) && !Endangered(Now(), org, f)
      modifies this
      ensures Valid()
      ensures images == old(images) && outbox == old(outbox) && orgs == old(orgs)
      ensures ready <==> !(f in old(files) && old(files)[f].status == Doomed)
      ensures ready ==> f in files && files[f].status == Available && f in objects && c in clients
      ensures ready ==> clients == old(clients)[c := Completed(org, f, files[f].version, BySeed(stored))]
      ensures ready ==> (stored <==> !(f in old(files) && old(files)[f].status == Available))
      ensures ready ==> files == old(files)[f := LogoFile(Available, StoredVersion(old(files), f))]
      ensures !stored ==> files == old(files) && objects == old(objects)
      ensures !ready ==> Now() == old(Now())
    {
      hide Inv, Exec, Next, Endangered, Seeding;
      ghost var s := Now();
      if f in files && files[f].status == Doomed {
        return false, false;
      }
      if f in files && files[f].status == Available {
        FoundIsStep(s, c, org, f);
        AvailableHasObject(s, f);
        LogoRuns.RunsKeepInv(s, [BeginSeed(c, org, f.n)]);
        clients := clients[c := Completed(org, f, files[f].version, BySeed(false))];
        return false, true;
      }
      SeedIsSteps(s, c, org, f);
      LogoRuns.RunsKeepInv(s, [BeginSeed(c, org, f.n), PutObject(c), Complete(c)]);
      if f !in files {
        files := files[f := LogoFile(Pending, 1)];
      }
      objects := objects + {f};
      var version := files[f].version + 1;
      files := files[f := LogoFile(Available, version)];
      clients := clients[c := Completed(org, f, version, BySeed(true))];
      assert files == s.files[f := LogoFile(Available, version)];
      return true, true;
    }

    /** Makes the fixture the organization's active logo unless it has one: the file under its
        fixed id, and then the activation, which another organization's image of the same file
        refuses, with nothing retired and nothing emitted. */
    method SeedLogo(c: nat, org: Id, f: FileId) returns (r: SeedOutcome)
      requires Valid() && c !in clients && f.Fixed? && !Seeding(Now()) && !Endangered(Now(), org, f)
      modifies this
      ensures Valid() && !Seeding(Now()) && orgs == old(orgs)
      ensures clients.Keys <= old(clients).Keys + {c} && old(files).Keys <= files.Keys
      ensures r.NoOrganization? <==> org !in orgs
      ensures r.Attached? <==>
                org in orgs && !Bound(old(images), org) && f !in old(images) && !(f in old(files) && old(files)[f].status == Doomed)
      ensures r.Attached? ==>
                && files == old(files)[f := LogoFile(Available, StoredVersion(old(files), f))] && f in objects
                && images == old(images)[f := org] && outbox == old(outbox) + [LogoUploaded(f, org, StoredVersion(old(files), f))]
      ensures !r.Attached? ==> images == old(images) && outbox == old(outbox)
      ensures org !in orgs || Bound(old(images), org) || Is(old(Now()), f, Doomed) ==> Now() == old(Now())
      ensures forall g :: g != f ==> (g in files <==> g in old(files)) && (g in files ==> files[g] == old(files)[g])
      ensures forall d :: d in old(clients) ==> d in clients && clients[d] == old(clients)[d]
      ensures c in clients ==> clients[c] == Finished
      ensures LogoSettled(old(Now()), LogoRow(org, f.n)) ==> Unchanged(old(Now()), Now())
    {
      hide Inv, Exec, Next, Endangered, Seeding;
      if org !in orgs {
        return NoOrganization;
      }
      ghost var s := Now();
      var current := FindActive(org);
      ActiveIsAll(s, org);
      if current.Some? {
        return Left;
      }
      var stored, ready := StoreSeed(c, org, f);
      if !ready {
        return Left;
      }
      ghost var t := Now();
      BoundIsFound(s, f);
      StoresElsewhere(s, t, f);
      SameActive(s, t, org);
      SeedActivates(t, c, org, f, files[f].version, stored);
      LogoRuns.RunsKeepInv(t, [Hold(c), Read(c), Logos.Activate(c, false)]);
      r := Left;
      if f !in images {
        r := Attached;
        images := images[f := org];
        outbox := outbox + [LogoUploaded(f, org, files[f].version)];
      }
      clients := clients[c := Finished];
      FinishedSeedsNothing(s, Now(), c);
    }

    /** Seeds each logo in file order and counts those it activated, one event each and none
        for a second run; stops at the first whose organization does not stand. */
    method WriteLogos(c: nat, rows: seq<LogoRow>) returns (seeded: nat, missing: Option<nat>)
      requires Valid() && (forall d :: d in clients ==> d < c) && !Seeding(Now()) && Undisturbed(Now(), rows)
      modifies this
      ensures Valid() && !Seeding(Now()) && orgs == old(orgs) && LogosGrown(old(Now()), Now(), seeded)
      ensures forall org, f :: Endangered(Now(), org, f) ==> Endangered(old(Now()), org, f)
      ensures missing.Some? <==> exists i :: 0 <= i < |rows| && rows[i].org !in orgs
      ensures missing.Some? ==>
                && missing.value < |rows| && rows[missing.value].org !in orgs
                && AllSettled(Now(), rows, missing.value)
      ensures missing.None? ==> AllSettled(Now(), rows, |rows|)
      ensures AllSettled(old(Now()), rows, |rows|) ==> seeded == 0 && Unchanged(old(Now()), Now())
      ensures forall d :: d in clients ==> d < c + |rows|
    {
      hide Inv, LogoSettled, Undisturbed, AllSettled, RowSeeded, LogosGrown, Seeding, Endangered;
      NoneSettled(Now(), rows);
      GrownNone(Now());
      seeded, missing := 0, None;
      var i := 0;
      while i < |rows|
        invariant 0 <= i <= |rows| && Valid() && !Seeding(Now()) && orgs == old(orgs)
        invariant forall org, f :: Endangered(Now(), org, f) ==> Endangered(old(Now()), org, f)
        invariant forall d :: d in clients ==> d < c + i
        invariant LogosGrown(old(Now()), Now(), seeded)
        invariant AllSettled(Now(), rows, i) && forall k :: 0 <= k < i ==> rows[k].org in orgs
        invariant AllSettled(old(Now()), rows, |rows|) ==>
                    seeded == 0 && AllSettled(Now(), rows, |rows|) && Unchanged(old(Now()), Now())
      {
        ghost var s := Now();
        RowUndisturbed(old(Now()), rows, i);
        RowSettled(s, rows, i);
        var r := SeedLogo(c + i, rows[i].org, Fixed(rows[i].id));
        EndangersNoMore(s, Now(), c + i);
        if r.NoOrganization? {
          missing := Some(i);
          return;
        }
        SeededSettles(s, Now(), rows[i], r.Attached?);
        GrownNext(old(Now()), s, Now(), rows[i], r.Attached?, seeded);
        AllSettledNext(s, Now(), rows, i, r.Attached?);
        if r.Attached? {
          seeded := seeded + 1;
        }
        i := i + 1;
      }
    }

    /** The organizations' rows as another transaction leaves them, every logo's with them. */
    method See(organizations: set<Id>)
      requires Valid() && forall f :: f in images ==> images[f] in organizations
      modifies this`orgs
      ensures Valid() && Now() == old(Now()).(orgs := organizations)
    {
      hide Core;
      OrganizationsKeepCore(Now(), organizations);
      orgs := organizations;
    }
  }

  // ---- A logo that needs no more seeding ----

  /** A state's logo: its organization, resolved, and the file's fixed id. */
  datatype LogoRow = LogoRow(org: Id, id: nat)

  /** The organization has a logo, or the file under the id is not the seed's to bind. */
  predicate LogoSettled(s: State, row: LogoRow) {
    Bound(s.images, row.org) || Fixed(row.id) in s.images || Is(s, Fixed(row.id), Doomed)
  }

  /** Nothing in flight endangers a row's file. */
  ghost predicate Undisturbed(s: State, rows: seq<LogoRow>) {
    forall i :: 0 <= i < |rows| ==> !Endangered(s, rows[i].org, Fixed(rows[i].id))
  }

  lemma RowUndisturbed(s: State, rows: seq<LogoRow>, i: nat)
    requires i < |rows| && Undisturbed(s, rows)
    ensures !Endangered(s, rows[i].org, Fixed(rows[i].id))
  {
  }

  /** A seed that has finished with one file endangers none. */
  lemma EndangersNoMore(s: State, t: State, c: nat)
    requires t.clients.Keys <= s.clients.Keys + {c} && (c in t.clients ==> t.clients[c] == Finished)
    requires forall d :: d in s.clients ==> d in t.clients && t.clients[d] == s.clients[d]
    requires s.files.Keys <= t.files.Keys && forall g :: g in s.images ==> g in t.images
    ensures forall org, f :: Endangered(t, org, f) ==> Endangered(s, org, f)
  {
    forall org, f | Endangered(t, org, f)
      ensures Endangered(s, org, f)
    {
      if f !in t.files && Purged(t, f) {
        var d :| d in t.clients && t.clients[d] == Purging(f);
        assert d in s.clients && s.clients[d] == Purging(f);
      } else {
        var d :| d in t.clients && ReadBy(t.clients[d], f) && t.clients[d].org != org;
        assert d in s.clients && ReadBy(s.clients[d], f);
      }
    }
  }

  /** The rows, the objects, the images, and the events as they were. */
  predicate Unchanged(s: State, t: State) {
    t.files == s.files && t.objects == s.objects && t.images == s.images && t.log == s.log
  }

  lemma RowSettled(s: State, rows: seq<LogoRow>, i: nat)
    requires i < |rows|
    ensures AllSettled(s, rows, |rows|) ==> LogoSettled(s, rows[i])
  {
  }

  ghost predicate AllSettled(s: State, rows: seq<LogoRow>, n: nat)
    requires n <= |rows|
  {
    forall j :: 0 <= j < n ==> LogoSettled(s, rows[j])
  }

  lemma NoneSettled(s: State, rows: seq<LogoRow>)
    ensures AllSettled(s, rows, 0)
  {
  }

  /** What one row's seed does: the row settled, bound and emitted only where it was not
      settled before, and nothing else touched. */
  ghost predicate RowSeeded(s: State, t: State, row: LogoRow, attached: bool) {
    var f := Fixed(row.id);
    && LogoSettled(t, row) && (attached <==> !LogoSettled(s, row)) && (attached ==> f !in s.images)
    && t.images == (if attached then s.images[f := row.org] else s.images)
    && (forall g :: g != f ==> (g in s.files <==> g in t.files) && (g in s.files ==> t.files[g] == s.files[g]))
    && (Is(s, f, Doomed) ==> t.files == s.files)
    && |t.log| == |s.log| + (if attached then 1 else 0) && t.orgs == s.orgs
  }

  /** So many more images and events, the images there before as they were. */
  ghost predicate LogosGrown(s: State, t: State, seeded: nat) {
    && |t.log| == |s.log| + seeded && |t.images| == |s.images| + seeded
    && (forall f :: f in s.images ==> f in t.images && t.images[f] == s.images[f])
  }

  lemma GrownNone(s: State)
    ensures LogosGrown(s, s, 0)
  {
  }

  lemma GrownNext(first: State, s: State, t: State, row: LogoRow, attached: bool, seeded: nat)
    requires LogosGrown(first, s, seeded) && RowSeeded(s, t, row, attached)
    ensures LogosGrown(first, t, if attached then seeded + 1 else seeded) && t.orgs == s.orgs
  {
    hide LogoSettled;
  }

  /** One more row settled, and those before still; a row settled already is not attached. */
  lemma AllSettledNext(s: State, t: State, rows: seq<LogoRow>, i: nat, attached: bool)
    requires i < |rows| && AllSettled(s, rows, i) && RowSeeded(s, t, rows[i], attached)
    ensures AllSettled(t, rows, i + 1)
    ensures AllSettled(s, rows, |rows|) ==> AllSettled(t, rows, |rows|) && !attached
  {
    hide LogoSettled;
    forall j | 0 <= j < |rows| && LogoSettled(s, rows[j])
      ensures LogoSettled(t, rows[j])
    {
      SettledStays(s, t, rows[i], rows[j], attached);
    }
  }

  lemma SeededSettles(s: State, t: State, row: LogoRow, attached: bool)
    requires attached <==> !Bound(s.images, row.org) && Fixed(row.id) !in s.images && !Is(s, Fixed(row.id), Doomed)
    requires t.images == if attached then s.images[Fixed(row.id) := row.org] else s.images
    requires Is(s, Fixed(row.id), Doomed) ==> t.files == s.files
    requires forall g :: g != Fixed(row.id) ==> (g in s.files <==> g in t.files) && (g in s.files ==> t.files[g] == s.files[g])
    requires |t.log| == |s.log| + (if attached then 1 else 0) && t.orgs == s.orgs
    ensures RowSeeded(s, t, row, attached)
  {
    if attached {
      assert Fixed(row.id) in t.images;
    }
  }

  lemma SettledStays(s: State, t: State, row: LogoRow, other: LogoRow, attached: bool)
    requires LogoSettled(s, other)
    requires t.images == if attached then s.images[Fixed(row.id) := row.org] else s.images
    requires attached ==> Fixed(row.id) !in s.images
    requires forall g :: g != Fixed(row.id) ==> (g in s.files <==> g in t.files) && (g in s.files ==> t.files[g] == s.files[g])
    requires Is(s, Fixed(row.id), Doomed) ==> t.files == s.files
    ensures LogoSettled(t, other)
  {
    if f :| f in s.images && s.images[f] == other.org {
      assert f in t.images && t.images[f] == other.org;
    }
  }

  // ---- The steps each part runs ----

  lemma BeginPutIs(s: State, c: nat, org: Id, f: FileId)
    requires c !in s.clients && f.Minted? && f !in s.files && !Mentioned(s, f) && org in s.orgs
    ensures Next(true, s, BeginPut(c, org, f))
         == s.(files := s.files[f := LogoFile(Pending, 1)], clients := s.clients[c := Writing(org, f, false)])
  {
    hide Mentioned, StartSeed, Finish, ReadActive, Activation, Deletion;
  }

  lemma PutObjectIs(s: State, c: nat)
    requires c in s.clients && s.clients[c].Writing?
    ensures Next(true, s, PutObject(c))
         == s.(objects := s.objects + {s.clients[c].file},
               clients := s.clients[c := Logos.Stored(s.clients[c].org, s.clients[c].file, s.clients[c].seed)])
  {
    hide Mentioned, StartSeed, Finish, ReadActive, Activation, Deletion;
  }

  lemma CompleteIs(s: State, c: nat, org: Id, f: FileId)
    requires c in s.clients && s.clients[c] == Logos.Stored(org, f, false) && f in s.files
    requires s.files[f] == LogoFile(Pending, 1)
    ensures Next(true, s, Complete(c))
         == s.(files := s.files[f := LogoFile(Available, 2)], clients := s.clients[c := Completed(org, f, 2, ByPut)])
  {
    hide Mentioned, StartSeed, ReadActive, Activation, Deletion;
  }

  lemma FailPutIs(s: State, c: nat, f: FileId)
    requires c in s.clients && s.clients[c].Writing? && s.clients[c].file == f && f in s.files
    requires s.files[f] == LogoFile(Pending, 1)
    ensures Next(true, s, FailPut(c)) == s.(files := s.files[f := LogoFile(Doomed, 1)], clients := s.clients[c := Purging(f)])
  {
    hide Mentioned, StartSeed, Finish, ReadActive, Activation, Deletion;
  }

  lemma WipeIs(s: State, c: nat)
    requires c in s.clients && s.clients[c].Purging?
    ensures Next(true, s, Wipe(c)) == s.(objects := s.objects - {s.clients[c].file}, clients := s.clients[c := Erasing(s.clients[c].file)])
  {
    hide Mentioned, StartSeed, Finish, ReadActive, Activation, Deletion;
  }

  lemma EraseIs(s: State, c: nat)
    requires c in s.clients && s.clients[c].Erasing? && Is(s, s.clients[c].file, Doomed)
    requires s.clients[c].file !in s.images
    ensures Next(true, s, Erase(c)) == s.(files := s.files - {s.clients[c].file}, clients := s.clients[c := Finished])
  {
    hide Mentioned, StartSeed, Finish, ReadActive, Activation, Deletion;
  }

  lemma HoldIs(s: State, c: nat, org: Id, f: FileId)
    requires c in s.clients && s.clients[c] == Completed(org, f, 2, ByPut) && Is(s, f, Available)
    ensures Next(true, s, Hold(c)) == To(s, c, Held(org, f, 2, ByPut))
  {
    hide Mentioned, StartSeed, Finish, ReadActive, Activation, Deletion;
  }

  lemma ReadIs(s: State, c: nat, org: Id, f: FileId)
    requires c in s.clients && s.clients[c] == Held(org, f, 2, ByPut)
    ensures Next(true, s, Read(c)) == To(s, c, Seen(org, f, 2, ByPut, ActiveLogo(s, org)))
  {
    hide Mentioned, StartSeed, Finish, Activation, Deletion, ActiveLogo;
  }

  lemma ActivateIs(s: State, c: nat, org: Id, f: FileId, current: Option<FileId>)
    requires c in s.clients && s.clients[c] == Seen(org, f, 2, ByPut, current)
    requires current.Some? ==> !HeldByAnother(s, c, current.value)
    requires org in s.orgs && Releases(s, current, false) && !Bound(Released(s, current).images, org) && f !in s.images
    ensures var r := Released(s, current);
            Next(true, s, Logos.Activate(c, false))
            == r.(images := r.images[f := org], log := s.log + [LogoUploaded(f, org, 2)],
                  clients := s.clients[c := if current.Some? then Purging(current.value) else Finished])
  {
    hide Mentioned, StartSeed, Finish, ReadActive, Deletion, Bound, HeldByAnother;
  }

  lemma BeginDeleteIs(s: State, c: nat, org: Id)
    requires c !in s.clients && ActiveLogo(s, org).Some?
    ensures Next(true, s, BeginDelete(c, org)) == To(s, c, Reading(org, ActiveLogo(s, org)))
  {
    hide Mentioned, StartSeed, Finish, ReadActive, Activation, Deletion, ActiveLogo;
  }

  lemma CommitDeleteIs(s: State, c: nat, org: Id, f: FileId)
    requires c in s.clients && s.clients[c] == Reading(org, Some(f)) && !HeldByAnother(s, c, f) && Is(s, f, Available)
    ensures var r := Released(s, Some(f));
            f in r.files && Next(true, s, CommitDelete(c, false))
                            == r.(log := s.log + [LogoDeleted(f, org, r.files[f].version)], clients := s.clients[c := Purging(f)])
  {
    hide Mentioned, StartSeed, Finish, ReadActive, Activation, HeldByAnother;
  }

  lemma WriteIsSteps(s: State, c: nat, org: Id, f: FileId)
    requires c !in s.clients && f.Minted? && f !in s.files && !Mentioned(s, f) && org in s.orgs
    ensures Exec(true, s, [BeginPut(c, org, f), PutObject(c), Complete(c)])
         == s.(files := s.files[f := LogoFile(Available, 2)], objects := s.objects + {f}, clients := s.clients[c := Completed(org, f, 2, ByPut)])
  {
    hide Next, Mentioned;
    LogoRuns.ExecThree(true, s, BeginPut(c, org, f), PutObject(c), Complete(c));
    BeginPutIs(s, c, org, f);
    var s1 := Next(true, s, BeginPut(c, org, f));
    PutObjectIs(s1, c);
    var s2 := Next(true, s1, PutObject(c));
    assert s2.clients == s.clients[c := Logos.Stored(org, f, false)];
    CompleteIs(s2, c, org, f);
    var s3 := Next(true, s2, Complete(c));
    assert s3.files == s.files[f := LogoFile(Available, 2)];
    assert s3.clients == s.clients[c := Completed(org, f, 2, ByPut)];
  }

  lemma AbandonIsSteps(s: State, c: nat, org: Id, f: FileId)
    requires Inv(s) && c !in s.clients && f.Minted? && f !in s.files && !Mentioned(s, f) && org in s.orgs
    ensures Exec(true, s, [BeginPut(c, org, f), FailPut(c), Wipe(c)] + [Erase(c)])
         == s.(objects := s.objects - {f}, clients := s.clients[c := Finished])
  {
    hide Next, Mentioned, Inv;
    BoundNotNew(s, f);
    LogoRuns.ExecAppend(true, s, [BeginPut(c, org, f), FailPut(c), Wipe(c)], [Erase(c)]);
    LogoRuns.ExecThree(true, s, BeginPut(c, org, f), FailPut(c), Wipe(c));
    BeginPutIs(s, c, org, f);
    var s1 := Next(true, s, BeginPut(c, org, f));
    FailPutIs(s1, c, f);
    var s2 := Next(true, s1, FailPut(c));
    assert s2.clients == s.clients[c := Purging(f)] && s2.files == s.files[f := LogoFile(Doomed, 1)];
    WipeIs(s2, c);
    var s3 := Next(true, s2, Wipe(c));
    assert s3.clients == s.clients[c := Erasing(f)];
    EraseIs(s3, c);
    var s4 := Next(true, s3, Erase(c));
    assert s4.clients == s.clients[c := Finished] && s4.files == s.files;
    LogoRuns.ExecOne(true, s3, Erase(c));
  }

  lemma ActivateIsSteps(s: State, c: nat, org: Id, f: FileId)
    requires Inv(s) && c in s.clients && s.clients[c] == Completed(org, f, 2, ByPut) && org in s.orgs
    requires Is(s, f, Available) && Free(s, org)
    ensures var t := Exec(true, s, [Hold(c), Read(c), Logos.Activate(c, false)]);
            var current := ActiveLogo(s, org);
            var r := Released(s, current);
            t == r.(images := r.images[f := org], log := s.log + [LogoUploaded(f, org, 2)],
                    clients := s.clients[c := if current.Some? then Purging(current.value) else Finished])
  {
    hide Next, Inv, ActiveLogo, Released, Free, Bound;
    LogoRuns.ExecThree(true, s, Hold(c), Read(c), Logos.Activate(c, false));
    Unbound(s, c);
    ActiveStands(s, org);
    OthersAre(s, org);
    HoldIs(s, c, org, f);
    var s1 := Next(true, s, Hold(c));
    SameActive(s, s1, org);
    ReadIs(s1, c, org, f);
    var s2 := Next(true, s1, Read(c));
    var current := ActiveLogo(s, org);
    var pc := Seen(org, f, 2, ByPut, current);
    assert s2.clients == s.clients[c := pc];
    ActiveIsAll(s, org);
    FreeElse(s, s2, c, org);
    assert s2 == s.(clients := s.clients[c := pc]);
    ReleasedElse(s, s.clients[c := pc], current);
    ActivateIs(s2, c, org, f, current);
    assert s2.clients[c := if current.Some? then Purging(current.value) else Finished]
        == s.clients[c := if current.Some? then Purging(current.value) else Finished];
  }

  lemma Unbound(s: State, c: nat)
    requires Inv(s) && c in s.clients && s.clients[c].Completed? && s.clients[c].writer == ByPut
    ensures s.clients[c].file !in s.images
  {
    HandOf(s, c);
  }

  lemma FreeElse(s: State, t: State, c: nat, org: Id)
    requires Free(s, org) && forall d :: d in t.clients && d != c ==> d in s.clients && t.clients[d] == s.clients[d]
    ensures forall f :: BoundTo(s.images, f, org) ==> !HeldByAnother(t, c, f)
  {
  }

  lemma ReleasedElse(s: State, clients: map<nat, Client>, current: Option<FileId>)
    ensures Released(s.(clients := clients), current) == Released(s, current).(clients := clients)
    ensures Releases(s.(clients := clients), current, false) <==> Releases(s, current, false)
    ensures Released(s, current).clients == s.clients && Released(s, current).log == s.log
  {
  }

  lemma PurgeIsSteps(s: State, c: nat)
    requires Inv(s) && c in s.clients && s.clients[c].Purging? && Is(s, s.clients[c].file, Doomed)
    ensures var f := s.clients[c].file;
            Exec(true, s, [Wipe(c), Erase(c)]) == s.(objects := s.objects - {f}, files := s.files - {f}, clients := s.clients[c := Finished])
  {
    hide Next, Inv, Hand;
    PurgedIsGone(s, c);
    LogoRuns.ExecTwo(true, s, Wipe(c), Erase(c));
    WipeIs(s, c);
    var s1 := Next(true, s, Wipe(c));
    EraseIs(s1, c);
    var s2 := Next(true, s1, Erase(c));
    assert s2.clients == s.clients[c := Finished];
  }

  lemma PurgedIsGone(s: State, c: nat)
    requires Inv(s) && c in s.clients && s.clients[c].Purging?
    ensures s.clients[c].file !in s.images
  {
    HandOf(s, c);
  }

  lemma DeleteIsSteps(s: State, c: nat, org: Id)
    requires Inv(s) && c !in s.clients && ActiveLogo(s, org).Some? && Free(s, org)
    ensures var f := ActiveLogo(s, org).value;
            var r := Released(s, Some(f));
            f in r.files && Exec(true, s, [BeginDelete(c, org), CommitDelete(c, false)])
                            == r.(log := s.log + [LogoDeleted(f, org, r.files[f].version)], clients := s.clients[c := Purging(f)])
  {
    hide Next, Inv, ActiveLogo, Free, Released;
    ActiveStands(s, org);
    LogoRuns.ExecTwo(true, s, BeginDelete(c, org), CommitDelete(c, false));
    var current := ActiveLogo(s, org);
    var f := current.value;
    BeginDeleteIs(s, c, org);
    var s1 := Next(true, s, BeginDelete(c, org));
    ActiveIsAll(s, org);
    FreeElse(s, s1, c, org);
    ReleasedElse(s, s.clients[c := Reading(org, current)], current);
    CommitDeleteIs(s1, c, org, f);
    assert s1.clients[c := Purging(f)] == s.clients[c := Purging(f)];
  }

  // ---- The seed's steps ----

  lemma AvailableHasObject(s: State, f: FileId)
    requires Inv(s) && Is(s, f, Available)
    ensures f in s.objects
  {
  }

  lemma BeginSeedIs(s: State, c: nat, org: Id, f: FileId)
    requires c !in s.clients && f.Fixed? && org in s.orgs && !Seeding(s) && !Endangered(s, org, f)
    ensures Next(true, s, BeginSeed(c, org, f.n)) == StartSeed(true, s, c, org, f)
  {
    hide Endangered, Seeding, StartSeed, Finish, ReadActive, Activation, Deletion;
  }

  lemma FoundIsStep(s: State, c: nat, org: Id, f: FileId)
    requires c !in s.clients && f.Fixed? && org in s.orgs && !Seeding(s) && Is(s, f, Available)
    requires !Endangered(s, org, f)
    ensures Exec(true, s, [BeginSeed(c, org, f.n)]) == To(s, c, Completed(org, f, s.files[f].version, BySeed(false)))
  {
    hide Next, Seeding, Endangered;
    BeginSeedIs(s, c, org, f);
    LogoRuns.ExecOne(true, s, BeginSeed(c, org, f.n));
  }

  lemma CompleteSeedIs(s: State, c: nat, org: Id, f: FileId)
    requires c in s.clients && s.clients[c] == Logos.Stored(org, f, true) && Is(s, f, Pending)
    ensures var v := s.files[f].version + 1;
            Next(true, s, Complete(c))
            == s.(files := s.files[f := LogoFile(Available, v)], clients := s.clients[c := Completed(org, f, v, BySeed(true))])
  {
    hide Mentioned, StartSeed, ReadActive, Activation, Deletion;
  }

  lemma SeedIsSteps(s: State, c: nat, org: Id, f: FileId)
    requires c !in s.clients && f.Fixed? && org in s.orgs && !Seeding(s)
    requires !Endangered(s, org, f) && (Is(s, f, Pending) || f !in s.files)
    ensures var v := if f in s.files then s.files[f].version + 1 else 2;
            Exec(true, s, [BeginSeed(c, org, f.n), PutObject(c), Complete(c)])
            == s.(files := s.files[f := LogoFile(Available, v)], objects := s.objects + {f},
                  clients := s.clients[c := Completed(org, f, v, BySeed(true))])
  {
    hide Next, Seeding, Endangered;
    LogoRuns.ExecThree(true, s, BeginSeed(c, org, f.n), PutObject(c), Complete(c));
    BeginSeedIs(s, c, org, f);
    var s1 := Next(true, s, BeginSeed(c, org, f.n));
    assert s1.clients == s.clients[c := Writing(org, f, true)] && Is(s1, f, Pending);
    PutObjectIs(s1, c);
    var s2 := Next(true, s1, PutObject(c));
    assert s2.clients == s.clients[c := Logos.Stored(org, f, true)];
    CompleteSeedIs(s2, c, org, f);
    var s3 := Next(true, s2, Complete(c));
    var v := if f in s.files then s.files[f].version + 1 else 2;
    assert s3.files == s.files[f := LogoFile(Available, v)];
    assert s3.clients == s.clients[c := Completed(org, f, v, BySeed(true))];
  }

  lemma SeedHoldIs(s: State, c: nat, org: Id, f: FileId, v: nat, stored: bool)
    requires c in s.clients && s.clients[c] == Completed(org, f, v, BySeed(stored)) && Is(s, f, Available)
    ensures Next(true, s, Hold(c)) == To(s, c, Held(org, f, v, BySeed(stored)))
  {
    hide Mentioned, StartSeed, Finish, ReadActive, Activation, Deletion;
  }

  lemma SeedReadIs(s: State, c: nat, org: Id, f: FileId, v: nat, stored: bool)
    requires c in s.clients && s.clients[c] == Held(org, f, v, BySeed(stored)) && ActiveLogo(s, org).None?
    ensures Next(true, s, Read(c)) == To(s, c, Seen(org, f, v, BySeed(stored), None))
  {
    hide Mentioned, StartSeed, Finish, Activation, Deletion, ActiveLogo;
  }

  lemma SeedActivateIs(s: State, c: nat, org: Id, f: FileId, v: nat, stored: bool)
    requires c in s.clients && s.clients[c] == Seen(org, f, v, BySeed(stored), None) && org in s.orgs && !Bound(s.images, org)
    ensures Next(true, s, Logos.Activate(c, false))
         == if f in s.images then To(s, c, Finished)
            else s.(images := s.images[f := org], log := s.log + [LogoUploaded(f, org, v)], clients := s.clients[c := Finished])
  {
    hide Mentioned, StartSeed, Finish, ReadActive, Deletion, Bound, HeldByAnother;
  }

  lemma SeedActivates(s: State, c: nat, org: Id, f: FileId, v: nat, stored: bool)
    requires Inv(s) && c in s.clients && s.clients[c] == Completed(org, f, v, BySeed(stored)) && Is(s, f, Available)
    requires org in s.orgs && ActiveLogo(s, org).None?
    ensures Exec(true, s, [Hold(c), Read(c), Logos.Activate(c, false)])
         == (if f in s.images then s else s.(images := s.images[f := org], log := s.log + [LogoUploaded(f, org, v)]))
            .(clients := s.clients[c := Finished])
  {
    hide Next, Inv, ActiveLogo, Bound;
    ActiveIsAll(s, org);
    LogoRuns.ExecThree(true, s, Hold(c), Read(c), Logos.Activate(c, false));
    SeedHoldIs(s, c, org, f, v, stored);
    var s1 := Next(true, s, Hold(c));
    SameActive(s, s1, org);
    SeedReadIs(s1, c, org, f, v, stored);
    var s2 := Next(true, s1, Read(c));
    SeedActivateIs(s2, c, org, f, v, stored);
    assert s2.clients[c := Finished] == s.clients[c := Finished];
  }

  /** A bound file is complete. */
  lemma BoundIsFound(s: State, f: FileId)
    requires Inv(s)
    ensures f in s.images ==> Is(s, f, Available)
  {
  }

  lemma StoresElsewhere(s: State, t: State, f: FileId)
    requires t.images == s.images
    ensures f in t.images <==> f in s.images
  {
  }

  lemma FinishedSeedsNothing(s: State, t: State, c: nat)
    requires !Seeding(s) && t.clients == s.clients[c := Finished]
    ensures !Seeding(t)
  {
  }

  // ---- The active logo ----

  lemma BoundOnce(s: State)
    requires Inv(s)
    ensures forall f, org :: f in s.images && s.images[f] == org ==> ActiveLogo(s, org) == Some(f)
  {
  }

  lemma ActiveIsAll(s: State, org: Id)
    requires Inv(s)
    ensures forall f :: f in s.images && s.images[f] == org <==> ActiveLogo(s, org) == Some(f)
    ensures ActiveLogo(s, org).Some? <==> Bound(s.images, org)
  {
    BoundOnce(s);
    hide Inv;
  }

  lemma ActiveStands(s: State, org: Id)
    requires Inv(s)
    ensures ActiveLogo(s, org).Some? ==> Is(s, ActiveLogo(s, org).value, Available) && ActiveLogo(s, org).value in s.images
  {
  }

  /** Releasing the active logo leaves the others' images. */
  lemma OthersAre(s: State, org: Id)
    requires Inv(s)
    ensures Released(s, ActiveLogo(s, org)).images == Others(s.images, org)
    ensures !Bound(Others(s.images, org), org)
  {
    ActiveIsAll(s, org);
    hide Inv, ActiveLogo;
    var current := ActiveLogo(s, org);
    LogoRuns.ReleasedImages(s, current);
    hide Released;
    assert (if current.Some? then s.images - {current.value} else s.images) == Others(s.images, org);
  }

  lemma SameActive(s: State, t: State, org: Id)
    requires Inv(s) && t.images == s.images
    ensures ActiveLogo(t, org) == ActiveLogo(s, org)
  {
    BoundOnce(s);
  }

  lemma BoundNotNew(s: State, f: FileId)
    requires Inv(s) && f !in s.files
    ensures f !in s.images
  {
  }

  lemma WrittenFree(s: State, c: nat, org: Id, f: FileId)
    requires Free(s, org)
    ensures Free(s.(files := s.files[f := LogoFile(Available, 2)], objects := s.objects + {f},
                    clients := s.clients[c := Completed(org, f, 2, ByPut)]), org)
  {
  }
}
