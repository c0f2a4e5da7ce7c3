/** The seed of a named state: the organizations' rows in one transaction, and once it commits
    the logos' files and the documents', each under the organization its path names. */
module StateSeed {
  import opened Forest
  import opened Events
  import Organizations
  import OrganizationPaths
  import OrganizationStore
  import Logos
  import LogoStore
  import Paths
  import Documents
  import DocumentAnswers
  import DocumentSeed
  import DocumentSeeder
  import DocumentSeedWrite

  /** One logo and one hierarchy as a state file declares them, their organization by path. */
  datatype Logo = Logo(path: string, id: nat)
  datatype Hierarchy = Hierarchy(path: string, rootId: Id, entries: seq<DocumentSeed.Entry>)

  /** A state file: every key it carries, and its rows under the keys a contribution reads, none
      under one it does not carry. */
  datatype StateFile = StateFile(keys: set<string>, organizations: seq<OrganizationStore.SeedRow>,
                                 logos: seq<Logo>, documents: seq<Hierarchy>)

  const READ := {"organizations", "logos", "documents"}

  datatype Counts = Counts(organizations: nat, logos: nat, documents: nat)
  datatype Failure = UnknownKey | Rows(error: OrganizationStore.SeedError) | NoOrganization(path: string) | Entry(name: string)

  /** What a run read the files' paths as: the logos' rows, the logo whose path names nobody, and
      the hierarchies as far as they went. */
  datatype Reading = Reading(rows: seq<LogoStore.LogoRow>, unnamed: Option<Failure>, trees: seq<DocumentSeeder.Tree>)

  // ---- Rows ----

  /** The rows a state carries, applied: so many more than before with an event for each, every
      row standing; and nothing changed where they all stood already. */
  ghost predicate RowsApplied(rows: seq<OrganizationStore.SeedRow>, t: Organizations.Table, log: seq<Event>,
                              t': Organizations.Table, log': seq<Event>, n: nat) {
    && log <= log' && |log'| == |log| + n && OrganizationStore.Grown(t, t', log'[|log|..])
    && OrganizationStore.Seeded(t', rows) && (OrganizationStore.Seeded(t, rows) ==> n == 0 && t' == t)
  }

  /** Applies a state's rows in one transaction: a failure rolls every row back. */
  method ApplyRows(store: OrganizationStore.OrganizationStore, rows: seq<OrganizationStore.SeedRow>)
    returns (inserted: nat, failure: Option<Failure>)
    requires store.Valid()
    modifies store
    ensures store.Valid()
    ensures failure.Some? <==> !OrganizationStore.WellFormed(rows)
    ensures failure.Some? ==>
              failure.value.Rows? && inserted == 0 && store.organizations == old(store.organizations) && store.outbox == old(store.outbox)
    ensures failure.None? ==>
              RowsApplied(rows, old(store.organizations), old(store.outbox), store.organizations, store.outbox, inserted)
  {
    hide OrganizationStore.WellFormed, OrganizationStore.Seeded, OrganizationStore.Grown, Organizations.Sound;
    var n, err := store.Seed(rows);
    if err.Some? {
      return 0, Some(Rows(err.value));
    }
    return n, None;
  }

  // ---- Logos ----

  /** Whether an organization has the path. */
  ghost predicate Found(t: Organizations.Table, path: string, org: Id) {
    org in t && Paths.Named(OrganizationPaths.TreeOf(t), "/" + Paths.TrimSlash(path), org)
  }

  ghost predicate Nobody(t: Organizations.Table, path: string) {
    forall org: Id :: !Found(t, path, org)
  }

  /** A logo's row with the organization its path names; the top stands for none. */
  ghost predicate RowOf(t: Organizations.Table, l: Logo, row: LogoStore.LogoRow) {
    row.id == l.id && if row.org == TOP then Nobody(t, l.path) else Found(t, l.path, row.org)
  }

  ghost predicate RowsOf(t: Organizations.Table, ls: seq<Logo>, rows: seq<LogoStore.LogoRow>) {
    |rows| == |ls| && forall i :: 0 <= i < |ls| ==> RowOf(t, ls[i], rows[i])
  }

  lemma FoundOnce(t: Organizations.Table, path: string, a: Id, b: Id)
    requires Organizations.Sound(t) && Found(t, path, a) && Found(t, path, b)
    ensures a == b
  {
    hide Paths.Named, Organizations.Sound, Paths.Labelled;
    OrganizationPaths.CodesLabel(t);
    Paths.NamedIsUnique(OrganizationPaths.TreeOf(t), "/" + Paths.TrimSlash(path), a, b);
  }

  lemma RowsOnce(t: Organizations.Table, ls: seq<Logo>, a: seq<LogoStore.LogoRow>, b: seq<LogoStore.LogoRow>)
    requires Organizations.Sound(t) && RowsOf(t, ls, a) && RowsOf(t, ls, b)
    ensures a == b
  {
    hide Found, Organizations.Sound;
    forall i | 0 <= i < |ls|
      ensures a[i] == b[i]
    {
      assert RowOf(t, ls[i], a[i]) && RowOf(t, ls[i], b[i]);
      if a[i].org != TOP && b[i].org != TOP {
        FoundOnce(t, ls[i].path, a[i].org, b[i].org);
      }
    }
  }

  method ResolveLogos(t: Organizations.Table, ls: seq<Logo>) returns (rows: seq<LogoStore.LogoRow>)
    requires Organizations.Sound(t)
    ensures RowsOf(t, ls, rows)
  {
    hide Organizations.Sound, Paths.Named;
    rows := [];
    for i := 0 to |ls|
      invariant |rows| == i && forall k :: 0 <= k < i ==> RowOf(t, ls[k], rows[k])
    {
      var org := OrganizationPaths.SeedOrganization(t, ls[i].path);
      OrganizationStore.TopIsNone(t);
      rows := rows + [LogoStore.LogoRow(if org.Some? then org.value else TOP, ls[i].id)];
    }
  }

  /** Nothing in flight endangers a seed's file. */
  ghost predicate Calm(s: Logos.State) {
    !Logos.Seeding(s) && forall org, f :: !Logos.Endangered(s, org, f)
  }

  /** The logos a state carries, written: so many more than before with an event for each, those
      before as they were, every one settled unless one's path names nobody, where the write
      stops; and none where all were settled already. */
  ghost predicate LogosWritten(ls: seq<Logo>, t: Organizations.Table, s: Logos.State, s': Logos.State, n: nat,
                               rows: seq<LogoStore.LogoRow>, failure: Option<Failure>) {
    && RowsOf(t, ls, rows) && LogoStore.LogosGrown(s, s', n)
    && (failure.Some? <==> exists i :: 0 <= i < |ls| && Nobody(t, ls[i].path))
    && (failure.None? ==> LogoStore.AllSettled(s', rows, |rows|))
    && (LogoStore.AllSettled(s, rows, |rows|) ==> n == 0 && LogoStore.Unchanged(s, s'))
  }

  /** Writes the logos in file order, each under the organization its path names. */
  method WriteLogos(t: Organizations.Table, store: LogoStore.LogoStore, c: nat, ls: seq<Logo>)
    returns (seeded: nat, failure: Option<Failure>, ghost rows: seq<LogoStore.LogoRow>)
    requires Organizations.Sound(t) && store.Valid() && store.orgs == t.Keys && Calm(store.Now())
    requires forall d :: d in store.clients ==> d < c
    modifies store
    ensures store.Valid() && store.orgs == t.Keys && Calm(store.Now()) && forall d :: d in store.clients ==> d < c + |ls|
    ensures LogosWritten(ls, t, old(store.Now()), store.Now(), seeded, rows, failure)
    ensures failure.Some? ==> failure.value.NoOrganization?
  {
    hide Organizations.Sound, Logos.Inv, LogoStore.AllSettled, LogoStore.LogosGrown, Logos.Endangered, Logos.Seeding;
    var resolved := ResolveLogos(t, ls);
    OrganizationStore.TopIsNone(t);
    rows := resolved;
    var missing;
    seeded, missing := store.WriteLogos(c, resolved);
    failure := if missing.Some? then Some(NoOrganization(ls[missing.value].path)) else None;
    MissingIsNobody(t, ls, resolved);
  }

  /** A state's logos written again once written are as they were. */
  lemma LogosAgain(ls: seq<Logo>, t: Organizations.Table, s: Logos.State, s1: Logos.State, s2: Logos.State, m: nat, n: nat,
          rows: seq<LogoStore.LogoRow>, rows': seq<LogoStore.LogoRow>, failure: Option<Failure>)
    requires Organizations.Sound(t) && LogosWritten(ls, t, s, s1, m, rows, None) && LogosWritten(ls, t, s1, s2, n, rows', failure)
    ensures failure.None? && n == 0 && LogoStore.Unchanged(s1, s2)
  {
    hide Organizations.Sound, LogoStore.AllSettled, Nobody;
    RowsOnce(t, ls, rows, rows');
  }

  lemma MissingIsNobody(t: Organizations.Table, ls: seq<Logo>, rows: seq<LogoStore.LogoRow>)
    requires RowsOf(t, ls, rows) && TOP !in t
    ensures (exists i :: 0 <= i < |rows| && rows[i].org !in t.Keys) <==> (exists i :: 0 <= i < |ls| && Nobody(t, ls[i].path))
  {
    hide Paths.Named;
    forall i | 0 <= i < |ls|
      ensures rows[i].org !in t.Keys <==> Nobody(t, ls[i].path)
    {
      assert RowOf(t, ls[i], rows[i]);
    }
    hide Nobody, Found;
    if i :| 0 <= i < |rows| && rows[i].org !in t.Keys {
      assert Nobody(t, ls[i].path);
    }
    if i :| 0 <= i < |ls| && Nobody(t, ls[i].path) {
      assert rows[i].org !in t.Keys;
    }
  }

  // ---- Documents ----

  /** The hierarchies with the organizations their paths name. */
  ghost predicate Resolved(t: Organizations.Table, hs: seq<Hierarchy>, trees: seq<DocumentSeeder.Tree>) {
    && |trees| == |hs|
    && forall i :: 0 <= i < |hs| ==> Resolves(t, hs[i], trees[i])
  }

  ghost predicate Resolves(t: Organizations.Table, h: Hierarchy, tree: DocumentSeeder.Tree) {
    tree == DocumentSeeder.Tree(tree.org, h.rootId, h.entries) && Found(t, h.path, tree.org)
  }

  /** Two readings of the file, one perhaps cut short, are one as far as both go. */
  lemma ResolvedOnce(t: Organizations.Table, hs: seq<Hierarchy>, a: seq<DocumentSeeder.Tree>, b: seq<DocumentSeeder.Tree>)
    requires Organizations.Sound(t) && Resolved(t, hs, a) && |b| <= |hs| && Resolved(t, hs[..|b|], b)
    ensures b == a[..|b|]
  {
    hide Found, Organizations.Sound;
    forall i | 0 <= i < |b|
      ensures a[i] == b[i]
    {
      assert Resolves(t, hs[i], a[i]) && Resolves(t, hs[..|b|][i], b[i]);
      FoundOnce(t, hs[i].path, a[i].org, b[i].org);
    }
  }

  /** The hierarchies a state carries, written: as far as each path names an organization and no
      hierarchy has a defect. */
  ghost predicate DocumentsWritten(hs: seq<Hierarchy>, t: Organizations.Table, s: DocumentAnswers.Snapshot, s': DocumentAnswers.Snapshot,
                                   n: nat, trees: seq<DocumentSeeder.Tree>, failure: Option<Failure>) {
    var p := DocumentSeeder.WriteAll(trees, t.Keys, s);
    && |trees| <= |hs| && Resolved(t, hs[..|trees|], trees) && s' == p.store && n == p.created
    && match failure
       case None => |trees| == |hs| && p.halt.None?
       case Some(NoOrganization(path)) => |trees| < |hs| && path == hs[|trees|].path && Nobody(t, path) && p.halt.None?
       case Some(Entry(name)) => p.halt == Some(DocumentSeed.Defect(name))
       case _ => false
  }

  /** Writes the hierarchies in file order, each where its path leads: stops at the first path
      that names no organization, and at the first hierarchy with a defect. */
  method WriteDocuments(t: Organizations.Table, seeder: DocumentSeeder.Seeder, hs: seq<Hierarchy>)
    returns (created: nat, failure: Option<Failure>, ghost trees: seq<DocumentSeeder.Tree>)
    requires Organizations.Sound(t) && seeder.Valid() && forall i :: 0 <= i < |hs| ==> hs[i].rootId != TOP
    modifies seeder
    ensures seeder.Valid() && DocumentsWritten(hs, t, old(seeder.Snap()), seeder.Snap(), created, trees, failure)
    ensures failure.Some? ==> failure.value.NoOrganization? || failure.value.Entry?
  {
    hide Documents.Sound, Organizations.Sound, DocumentSeed.SeedTree, Paths.Named;
    created, failure, trees := 0, None, [];
    ghost var s0 := seeder.Snap();
    var i := 0;
    while i < |hs|
      invariant 0 <= i <= |hs| && seeder.Valid() && failure.None? && |trees| == i
      invariant Resolved(t, hs[..i], trees)
      invariant var p := DocumentSeeder.WriteAll(trees, t.Keys, s0); seeder.Snap() == p.store && created == p.created && p.halt.None?
    {
      var org := OrganizationPaths.SeedOrganization(t, hs[i].path);
      if org.None? {
        return created, Some(NoOrganization(hs[i].path)), trees;
      }
      var tree := DocumentSeeder.Tree(org.value, hs[i].rootId, hs[i].entries);
      var n, err := seeder.SeedHierarchy(tree, tree.org in t);
      OneMore(trees, tree, t.Keys, s0);
      ResolvedNext(t, hs, trees, tree, i);
      trees := trees + [tree];
      created := created + n;
      if err.Some? {
        return created, Some(Entry(err.value)), trees;
      }
      i := i + 1;
    }
    assert hs[..i] == hs;
  }

  lemma ResolvedNext(t: Organizations.Table, hs: seq<Hierarchy>, trees: seq<DocumentSeeder.Tree>,
          tree: DocumentSeeder.Tree, i: nat)
    requires i < |hs| && Resolved(t, hs[..i], trees) && Resolves(t, hs[i], tree)
    ensures Resolved(t, hs[..i + 1], trees + [tree])
  {
    hide Resolves;
    var all, upTo := trees + [tree], hs[..i + 1];
    forall k | 0 <= k < |upTo|
      ensures Resolves(t, upTo[k], all[k])
    {
      assert k < i ==> hs[..i][k] == upTo[k] && trees[k] == all[k];
    }
  }

  lemma {:induction false} OneMore(trees: seq<DocumentSeeder.Tree>, tree: DocumentSeeder.Tree, orgs: set<Id>,
          s: DocumentAnswers.Snapshot)
    requires DocumentSeeder.WriteAll(trees, orgs, s).halt.None?
    ensures var before := DocumentSeeder.WriteAll(trees, orgs, s);
            var one := DocumentSeed.SeedTree(tree.org, tree.org in orgs, tree.rootId, tree.entries, before.store, DocumentSeed.UNLIMITED);
            var after := DocumentSeeder.WriteAll(trees + [tree], orgs, s);
            after.store == one.store && after.created == before.created + one.created && after.halt == one.halt
    decreases |trees|
  {
    hide DocumentSeed.SeedTree;
    if trees == [] {
      assert [] + [tree] == [tree] && [tree][1..] == [];
    } else {
      assert (trees + [tree])[1..] == trees[1..] + [tree];
      var t := trees[0];
      var p := DocumentSeed.SeedTree(t.org, t.org in orgs, t.rootId, t.entries, s, DocumentSeed.UNLIMITED);
      OneMore(trees[1..], tree, orgs, p.store);
    }
  }

  /** Part of a list that is written whole is written whole. */
  lemma {:induction false} PartNoHalt(trees: seq<DocumentSeeder.Tree>, k: nat, orgs: set<Id>, s: DocumentAnswers.Snapshot)
    requires k <= |trees| && DocumentSeeder.WriteAll(trees, orgs, s).halt.None?
    ensures DocumentSeeder.WriteAll(trees[..k], orgs, s).halt.None?
    decreases k
  {
    hide DocumentSeed.SeedTree;
    if k > 0 {
      assert trees[..k][0] == trees[0] && trees[..k][1..] == trees[1..][..k - 1];
      var t := trees[0];
      var p := DocumentSeed.SeedTree(t.org, t.org in orgs, t.rootId, t.entries, s, DocumentSeed.UNLIMITED);
      PartNoHalt(trees[1..], k - 1, orgs, p.store);
    }
  }

  /** A state's hierarchies written again once written are as they were. */
  lemma DocumentsAgain(hs: seq<Hierarchy>, t: Organizations.Table, s: DocumentAnswers.Snapshot, s1: DocumentAnswers.Snapshot,
          s2: DocumentAnswers.Snapshot, m: nat, n: nat, trees: seq<DocumentSeeder.Tree>, trees': seq<DocumentSeeder.Tree>,
          failure: Option<Failure>)
    requires Organizations.Sound(t) && Documents.Sound(s.rows) && DocumentSeedWrite.WellFormedTrees(trees)
    requires DocumentsWritten(hs, t, s, s1, m, trees, None) && DocumentsWritten(hs, t, s1, s2, n, trees', failure)
    ensures failure.None? && n == 0 && s2 == s1
  {
    hide Organizations.Sound, Documents.Sound, DocumentSeedWrite.WellFormedTrees, DocumentSeeder.WriteAll, Found;
    assert hs[..|hs|] == hs;
    ResolvedOnce(t, hs, trees, trees');
    RerunIsNothing(trees, t.Keys, s);
    PartNoHalt(trees, |trees'|, t.Keys, s1);
    assert |trees'| < |hs| ==> Resolves(t, hs[|trees'|], trees[|trees'|]);
    assert |trees'| == |hs| ==> trees' == trees;
  }

  lemma RerunIsNothing(trees: seq<DocumentSeeder.Tree>, orgs: set<Id>, s: DocumentAnswers.Snapshot)
    requires Documents.Sound(s.rows) && DocumentSeedWrite.WellFormedTrees(trees)
    ensures var once := DocumentSeeder.WriteAll(trees, orgs, s);
            var again := DocumentSeeder.WriteAll(trees, orgs, once.store);
            once.halt.None? ==> again.store == once.store && again.created == 0 && again.halt.None?
  {
    hide Documents.Sound, DocumentSeeder.WriteAll, DocumentSeedWrite.WriteRun;
    DocumentSeedWrite.WriteResumes(trees, orgs, s, DocumentSeed.UNLIMITED);
    DocumentSeedWrite.WriteRunIsWrite(trees, orgs, s);
    DocumentSeedWrite.WriteKeepsSound(trees, orgs, s, DocumentSeed.UNLIMITED);
    DocumentSeedWrite.WriteRunIsWrite(trees, orgs, DocumentSeedWrite.WriteRun(trees, orgs, s, DocumentSeed.UNLIMITED).store);
  }
  // ---- A state ----

  /** What the three stores hold, each with its part of the outbox. */
  datatype Stores = Stores(table: Organizations.Table, outbox: seq<Event>, logos: Logos.State, docs: DocumentAnswers.Snapshot)

  ghost function Held(store: OrganizationStore.OrganizationStore, logos: LogoStore.LogoStore, seeder: DocumentSeeder.Seeder): Stores
    reads store, logos, seeder
  {
    Stores(store.organizations, store.outbox, logos.Now(), seeder.Snap())
  }

  /** A state applied to the stores b, which are then a: refused whole, or its rows applied, and
      its files written up to the first failure, each count what its part gained. */
  ghost predicate Applied(file: StateFile, b: Stores, a: Stores, counts: Counts, failure: Option<Failure>, found: Reading) {
    && (!(file.keys <= READ) <==> failure == Some(UnknownKey))
    && (file.keys <= READ ==> (failure.Some? && failure.value.Rows? <==> !OrganizationStore.WellFormed(file.organizations)))
    && if failure.Some? && (failure.value.UnknownKey? || failure.value.Rows?) then a == b && counts == Counts(0, 0, 0)
       else
         && RowsApplied(file.organizations, b.table, b.outbox, a.table, a.outbox, counts.organizations)
         && LogosWritten(file.logos, a.table, b.logos, a.logos, counts.logos, found.rows, found.unnamed)
         && if found.unnamed.Some? then failure == found.unnamed && a.docs == b.docs && counts.documents == 0
            else DocumentsWritten(file.documents, a.table, b.docs, a.docs, counts.documents, found.trees, failure)
  }

  /** Applies a state. A key nothing reads is refused before anything is written; a failure
      among the rows rolls every row back and writes no file; a failure among the files leaves
      the rows and the files before it. The counts are what the run stored. */
  method Seed(store: OrganizationStore.OrganizationStore, logos: LogoStore.LogoStore, c: nat, seeder: DocumentSeeder.Seeder,
              file: StateFile)
    returns (counts: Counts, failure: Option<Failure>, ghost found: Reading)
    requires store.Valid() && logos.Valid() && seeder.Valid() && logos.orgs == store.organizations.Keys && Calm(logos.Now())
    requires forall d :: d in logos.clients ==> d < c
    requires forall i :: 0 <= i < |file.documents| ==> file.documents[i].rootId != TOP
    modifies store, logos, seeder
    ensures store.Valid() && logos.Valid() && seeder.Valid() && logos.orgs == store.organizations.Keys && Calm(logos.Now())
    ensures forall d :: d in logos.clients ==> d < c + |file.logos|
    ensures Applied(file, old(Held(store, logos, seeder)), Held(store, logos, seeder), counts, failure, found)
  {
    hide OrganizationStore.WellFormed, Organizations.Sound, Documents.Sound, Logos.Inv, Calm, RowsApplied, LogosWritten, DocumentsWritten;
    counts, failure, found := Counts(0, 0, 0), None, Reading([], None, []);
    if !(file.keys <= READ) {
      return counts, Some(UnknownKey), found;
    }
    var n;
    n, failure := ApplyRows(store, file.organizations);
    if failure.Some? {
      return counts, failure, found;
    }
    counts := counts.(organizations := n);
    ghost var before := logos.Now();
    StillStand(before, old(store.organizations), old(store.outbox), store.organizations, store.outbox, file.organizations, n);
    logos.See(store.organizations.Keys);
    ghost var rows;
    n, failure, rows := WriteLogos(store.organizations, logos, c, file.logos);
    LogosAside(file.logos, store.organizations, before, store.organizations.Keys, logos.Now(), n, rows, failure);
    found := Reading(rows, failure, []);
    counts := counts.(logos := n);
    if failure.Some? {
      return counts, failure, found;
    }
    ghost var trees;
    n, failure, trees := WriteDocuments(store.organizations, seeder, file.documents);
    found := found.(trees := trees);
    counts := counts.(documents := n);
  }

  /** The organizations the logos' images are of still stand, and the logos are as calm. */
  lemma StillStand(s: Logos.State, t: Organizations.Table, log: seq<Event>, t': Organizations.Table, log': seq<Event>,
          rows: seq<OrganizationStore.SeedRow>, n: nat)
    requires Logos.Inv(s) && s.orgs == t.Keys && RowsApplied(rows, t, log, t', log', n) && Calm(s)
    ensures forall f :: f in s.images ==> s.images[f] in t'.Keys
    ensures Calm(s.(orgs := t'.Keys))
  {
    hide OrganizationStore.Seeded;
    assert forall org, f :: Logos.Endangered(s.(orgs := t'.Keys), org, f) ==> Logos.Endangered(s, org, f);
  }

  lemma LogosAside(ls: seq<Logo>, t: Organizations.Table, s: Logos.State, orgs: set<Id>, s': Logos.State, n: nat,
          rows: seq<LogoStore.LogoRow>, failure: Option<Failure>)
    requires LogosWritten(ls, t, s.(orgs := orgs), s', n, rows, failure)
    ensures LogosWritten(ls, t, s, s', n, rows, failure)
  {
    hide RowsOf, Nobody;
  }

  /** The same rows, objects, images, documents, and events. */
  predicate Same(a: Stores, b: Stores) {
    a.table == b.table && a.outbox == b.outbox && LogoStore.Unchanged(a.logos, b.logos) && a.docs == b.docs
  }

  /** A state seeded again over itself fails nowhere, counts nothing, and leaves everything as the
      first run left it, which is mid. */
  method SeedAgain(store: OrganizationStore.OrganizationStore, logos: LogoStore.LogoStore, c: nat, seeder: DocumentSeeder.Seeder,
                   file: StateFile)
    returns (first: Counts, again: Counts, failure: Option<Failure>, failedAgain: Option<Failure>, ghost found: Reading, ghost mid: Stores)
    requires store.Valid() && logos.Valid() && seeder.Valid() && logos.orgs == store.organizations.Keys && Calm(logos.Now())
    requires forall d :: d in logos.clients ==> d < c
    requires forall i :: 0 <= i < |file.documents| ==> file.documents[i].rootId != TOP
    modifies store, logos, seeder
    ensures Applied(file, old(Held(store, logos, seeder)), mid, first, failure, found)
    ensures failure.None? && DocumentSeedWrite.WellFormedTrees(found.trees) ==>
              failedAgain.None? && again == Counts(0, 0, 0) && Same(mid, Held(store, logos, seeder))
  {
    hide OrganizationStore.WellFormed, Organizations.Sound, Documents.Sound, Logos.Inv, Calm, Applied, DocumentSeedWrite.WellFormedTrees;
    again, failedAgain := Counts(0, 0, 0), None;
    ghost var before := Held(store, logos, seeder);
    first, failure, found := Seed(store, logos, c, seeder, file);
    mid := Held(store, logos, seeder);
    if failure.None? {
      ghost var foundAgain;
      again, failedAgain, foundAgain := Seed(store, logos, c + |file.logos|, seeder, file);
      if DocumentSeedWrite.WellFormedTrees(found.trees) {
        AppliedAgain(file, before, mid, Held(store, logos, seeder), first, again, found, foundAgain, failedAgain);
      }
    }
  }

  lemma AppliedAgain(file: StateFile, b: Stores, m: Stores, a: Stores, first: Counts, again: Counts, found: Reading, foundAgain: Reading,
          failure: Option<Failure>)
    requires Organizations.Sound(m.table) && Documents.Sound(b.docs.rows) && DocumentSeedWrite.WellFormedTrees(found.trees)
    requires Applied(file, b, m, first, None, found) && Applied(file, m, a, again, failure, foundAgain)
    ensures failure.None? && again == Counts(0, 0, 0) && Same(m, a)
  {
    hide OrganizationStore.WellFormed, Organizations.Sound, Documents.Sound, RowsApplied, LogosWritten, DocumentsWritten,
         DocumentSeedWrite.WellFormedTrees;
    RowsAgain(file.organizations, b.table, b.outbox, m.table, m.outbox, a.table, a.outbox, first.organizations, again.organizations);
    LogosAgain(file.logos, m.table, b.logos, m.logos, a.logos, first.logos, again.logos, found.rows, foundAgain.rows, foundAgain.unnamed);
    DocumentsAgain(file.documents, m.table, b.docs, m.docs, a.docs, first.documents, again.documents, found.trees, foundAgain.trees, failure);
  }

  /** A state's rows applied again once applied are as they were. */
  lemma RowsAgain(rows: seq<OrganizationStore.SeedRow>, t: Organizations.Table, log: seq<Event>, t1: Organizations.Table, log1: seq<Event>,
          t2: Organizations.Table, log2: seq<Event>, m: nat, n: nat)
    requires RowsApplied(rows, t, log, t1, log1, m) && RowsApplied(rows, t1, log1, t2, log2, n)
    ensures n == 0 && t2 == t1 && log2 == log1
  {
    hide OrganizationStore.Seeded, OrganizationStore.Grown;
  }
}
