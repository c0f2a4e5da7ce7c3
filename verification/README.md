# Verification model of the service's state, commands, and events

This project models what the service commits and proves what it promises about it: the
organization tree, the organizations' logos, the document hierarchies, their seeds, and the
events each command commits in its own transaction. It also models the two colourers of
`tools/slab/style`. `dafny verify dfyconfig.toml` checks it all.

## The parts

| modules | what they model |
|---|---|
| Strings, Ansi, Sql, SqlErasure, Json | The SQL and JSON colourers, loop by loop, with the reference division of a line and the reference colouring of a JSON value |
| Terminal, SqlTerminal, JsonTerminal | What a terminal that knows the escapes by their spelling shows of either colouring |
| Forest | Parent pointers, ancestor walks, and what an insert, a removal, and a move do to them |
| Events | The events and the data they carry |
| Organizations, OrganizationStore, TransferProtocol | The organization table, its commands and its seed, and transfers in flight at once |
| Paths, OrganizationPaths, DocumentPaths | Composed paths and the walk that resolves them |
| Documents, DocumentScope, DocumentAnswers, DocumentStore, FirstWrite, MarkProtocol | The document hierarchies: transactions, scope, what each request answers, the store's protocols, the first write's race, and the lock that marks and moves take |
| DocumentReplay, DocumentRuns, DocumentOnce, DocumentVersions, DocumentRecreation | What a consumer that replays the document events sees |
| DocumentSeed, DocumentSeedRuns, DocumentSeedResume, DocumentSeedTree, DocumentSeedWrite, DocumentSeeder, StateSeed | The seeds, stopped anywhere and run again |
| Logos, LogoRuns, LogoReuse, LogoStore | The logo protocols, step by step and interleaved, and when a fixed id may be seeded again |
| Service | The three domains over one outbox, the relay, and the state reset |

A store is a class whose fields are the rows and the outbox. Its methods' contracts say outright
when each succeeds, what row it then leaves, and what its event carries, and tie the new state to
a function of the old one (`Run`, `Step`, `Next`), which the lemmas over runs are about. A race is a state machine whose steps are the statements that matter, the lock, the
read, and the write; everywhere else a transaction is one step.

## What is assumed of the libraries

blobfs, sqlate, go-messaging, and go-database are not part of this model. It takes from them
what the service's comments state:

- A transaction that returns an error is rolled back, and an event raised in a transaction
  commits with it or not at all. The relay publishes in commit order.
- A guarded write succeeds only at the version it names and advances it by one. Each statement
  reads what has committed; a unique index makes an insert wait for an uncommitted one of its key
  and refuses it after a committed one; a lock is held to the end of its transaction.
- `Ensure` finds by name or inserts; sibling names and ids are unique. A name is not empty and
  holds no separator, the only part of blobfs's name rule used here.
- `MarkDeleting` marks the directory and everything beneath it, directories and files, and
  converges at any version on a directory deleting already. A move refuses an entry or a
  destination that is deleting, and a cycle. A create or a completion may slip past a concurrent
  mark into a directory already marked (`raced`). The sweep may mark a directory left active
  under a deleting one, and may remove any file of a deleting directory, any deleting directory
  once it is empty, and any pending or deleting file. A mark, by a request or by the sweep, takes
  the tree's lock.
- Whether a plain delete removes an empty directory that is deleting already, and whether beginning
  the delete of a logo's file already deleting succeeds, is not visible; both answers are modelled
  (`lenient`).
- `Hold` refuses a file that is not available and keeps any delete of it waiting until its
  transaction ends. An object's delete is idempotent.
- An id the engine or blobfs mints is one nothing has ever named.

## Where a promise holds, and where it does not

- **A directory created again under an id it had before.** A branch's mark emits for its top
  alone, so a copy keeps the entries beneath it, out of reach. When a seed later creates its
  directory again under the same fixed id, those entries are in reach again in the copy and
  gone in the rows. `RecreationIsExact` gives the condition, that the copy lays nothing under the
  id, for a root and for a create in view; for a create out of view, raced beneath a deleting
  directory, `MovedIntoViewIsExact` gives the same once a move brings it into view, as one
  can wherever its organization's root stands. `RerunLeaks` is a run that breaks it.
  `DocumentRuns.AllRuns` and `Service.AllRuns` take runs that meet it; a minted id always does.
- **A request between a reset's drop and its event.** The service pauses its relay and its sweep
  there and nothing else; the model lets the sweep's steps through as well. The rows are always
  what the events since the drop replay to (`Service.AllRuns`). Nothing stands without an
  organization (`WithoutOrganizations`), so the reset's event makes a consumer right exactly when
  those events delete each organization they write (`ResetIsExact`), and a consumer is right at
  every moment outside the windows exactly when that holds of every reset (`RightIsExact`): an
  organization created there is lost to every consumer (`UngatedCreateIsLost`), one created and
  deleted there is not. A reset whose event fails to commit stays in that window until a later
  reset's commits.
- **A seeded file left deleting.** The seed's documentation says a rerun converges. After an
  abandon whose second half failed, a rerun finds the row deleting, leaves it, and reports
  nothing, until the sweep removes it (`AbandonedResumesIfRemoved`).
- **A logo's fixed id begun again.** While a removal of the file it was has yet to reach the
  object store, that removal takes the new object too (`WithoutGuardAnObjectIsLost`); while
  another organization's client that read it as its active logo has yet to release it, that
  client's transaction takes the new image. Where neither is under way nothing undoes the seed
  (`ReuseIsExact`), and the logo theorems take the runs whose seeds start there.
- **Erasure.** A text that already holds an escape, and, for SQL, a byte outside UTF-8 in code, do
  not come back (`ErasureIsExact`, `JsonErasureIsExact`). What a terminal shows of a colouring is
  what it should show under the same condition (`SqlShows`, `DocumentShows`).
- **The tree lock.** Without it two transfers make a cycle (`WithoutLockACycle`), and a mark
  commits a second deletion event beside a straggler: a create raced beneath the directory, as the
  code's own comment says (`WithoutLockTwice`), or a move that checked its destination before the
  marks (`WithoutLockAMoveToo`). It takes one of the two: a run without either commits each
  deletion once with no lock (`WithoutStragglerOnce`).

## Model

| member | source | states |
|---|---|---|
| Ansi.ScanIsStrip | tools/slab/style/style_test.go:11-13 | A scanner that reads a unit at a time shows exactly what removing every escape, leftmost first, leaves, so erasure composes over concatenation |
| Ansi.ScanWrapped | tools/slab/style/style.go:48-61 | Colour put around text that begins with a unit no escape can hold is invisible: what is shown is what the bare text shows |
| Sql.SqlCode | tools/slab/style/sql.go:73-100 | Writes the code's colouring, a function of its maximal words, after what was written, for every text, invalid UTF-8 included |
| Sql.TokensAreWords | tools/slab/style/sql.go:73-104 | The words a code span is read into are whole, maximal, and apart, and their texts make the span |
| Sql.WordsAreUnique | tools/slab/style/sql.go:73-104 | Any reading of a code span into maximal words and single other units is that one |
| Sql.SqlLine | tools/slab/style/sql.go:44-71 | Writes the colouring of the line's spans; the loop ends, for every line |
| Sql.SpansPartition | tools/slab/style/sql.go:20-28 | The spans of a line divide it into code with no comment or closed marker in it, closed markers, and at most one trailing comment |
| Sql.PartitionIsUnique | tools/slab/style/sql.go:20-28 | Any such division of the line is that one, so the division determines the colouring |
| Sql.SQL | tools/slab/style/sql.go:29-42 | With colour on, the text's colouring line by line; with colour off, the text |
| Terminal.RenderIsStrip | tools/slab/style/style_test.go:11-13 | A terminal that knows escapes by their spelling alone shows, whatever the pen, exactly the units that stripping leaves |
| Terminal.RenderIsExact | tools/slab/style/style.go:48-61 | For any pieces, plain or between an escape and a reset, the terminal shows each piece under its own escape if and only if stripping gives the pieces' text back |
| SqlErasure.ErasureShowsRepaired | tools/slab/style/sql.go:20-104 | For every text, what the colouring shows once its escapes are removed is what the text shows with each stray byte of its code repaired |
| SqlErasure.ErasureIsExact | tools/slab/style/sql.go:20-104 | Removing the escapes gives the text back exactly when the text held no escape and no stray byte in its code |
| SqlErasure.ErasureFails | tools/slab/style/sql.go:89-97 | A byte outside UTF-8 in code, and an escape the text already held, do not come back |
| SqlTerminal.TrimFindsComments | tools/slab/style/sql.go:44-48 | The lines dimmed whole are exactly those whose first character after their spaces and tabs opens a comment |
| SqlTerminal.SqlShows | tools/slab/style/sql.go:20-104 | Exactly where the text, its stray bytes of code replaced, holds no escape, a terminal shows the colouring line by line with each comment under ESC[2m, each closed marker under ESC[32m, each whole-word keyword under ESC[1m, and every other unit plain |
| SqlTerminal.SqlShowsText | tools/slab/style/sql.go:20-104 | So it does for every valid text without the escape character |
| Json.JSON | tools/slab/style/json.go:16-95 | For any tokenizer whose offsets never go back: the weave of the text with each literal painted by its role where the text is accepted, and the text itself where it fails to tokenize, ends inside a container, or a token ends within its gap; the loop ends |
| Json.ValueColours | tools/slab/style/json.go:24-91 | At any nesting depth a JSON value's tokens take the escapes its structure gives them: 34 a member's name, 32 any other string and any number, and none the rest |
| Json.DocumentColours | tools/slab/style/json.go:10-15 | A text that tokenizes as JSON values (sections 2 to 5 of RFC 8259) is accepted, and each token takes the escape its place in the structure gives it |
| Json.BreakIsUnchanged | tools/slab/style/json.go:33-58 | A text that fails to tokenize, whose tokens open more containers than they close, or in which a token is all gap is answered unchanged, and any other is coloured |
| Json.JsonErasureIsExact | tools/slab/style/json.go:43-94 | For every text and every monotone tokenizer, removing the escapes gives the text back exactly when no run of it between two colours holds an escape whole |
| Json.JsonErasure | tools/slab/style/json.go:43-94 | Text without the escape character always comes back whole |
| Json.JsonErasureFails | tools/slab/style/json.go:33-42 | A text that is an escape does not tokenize, is returned as it came, and does not come back once its escapes are removed |
| JsonTerminal.DocumentShows | tools/slab/style/json.go:43-94 | However a document of JSON values is spelled, a terminal shows its coloured text in its own order, each member's name under ESC[34m, each other string and number under ESC[32m, and every other unit plain, if and only if no run between two colours holds an escape |
| JsonTerminal.DocumentShowsText | tools/slab/style/json.go:43-94 | So it does for every document without the escape character |
| Forest.Reparent | domain/organization/database.go:126-146 | Moving a row under another keeps the forest exactly when the new parent is outside the row's own subtree |
| Forest.ReparentWithin | domain/document/storage.go:300-321 | A move under a parent that lies, as the moved row does, within an ancestor leaves every row within that ancestor or outside it as before |
| Forest.InSubtree | domain/organization/statements/in_subtree.sql:1-10 | The walk up the candidate's chain ends on every forest and finds the node exactly when the candidate lies in its subtree, the node included |
| Organizations.RunKeepsSound | domain/organization/database.go:100-167 | Every committed create, edit, transfer, and delete keeps the table's constraints and the forest |
| Organizations.CodeIsWords | data/migrations/0001_organization.up.sql:10-10 | The code rule, read a character at a time, is that of words of lowercase letters and digits put together by single hyphens |
| Organizations.CreateAnswers | domain/organization/database.go:100-111 | A create stores its parent, code, and name at version 1 with an event that carries them, exactly where the checks, the siblings' codes, and the parent let it, and which of them refuses it otherwise |
| Organizations.EditAnswers | domain/organization/database.go:113-124 | An edit writes its code and name, keeps the parent, advances the version it names by one, and its event carries the four; which check refuses it otherwise |
| Organizations.TransferAnswers | domain/organization/database.go:126-153 | A transfer writes its parent alone and its event carries it; a parent in the organization's own subtree is a cycle at any version |
| Organizations.DeleteAnswers | domain/organization/database.go:155-167 | A delete removes the row exactly at its version and where no child and no other table's row references it |
| Organizations.WriteKeepsForest | domain/organization/database.go:137-149 | A written parent keeps the forest if and only if it lies outside the row's subtree |
| Organizations.RunReplays | domain/organization/messaging.go:54-63 | A consumer that applies a command's event to the table before has the table after |
| Organizations.NextKeepsHistory | domain/organization/messaging.go:54-63 | The events about one organization carry the versions 1 to n with no gap or repeat, and a deletion n again |
| Organizations.AllRuns | domain/organization/database.go:100-167 | After every run of commands, refused ones and stale versions among them: the table is sound, the events replay to it, and each organization's carry its versions in order |
| OrganizationStore.OrganizationStore.Create | domain/organization/database.go:100-111 | Succeeds exactly on a valid code, a name, a standing parent or none, and no sibling of the code; then the row is its arguments at version 1 with their event, and otherwise nothing changes |
| OrganizationStore.OrganizationStore.Edit | domain/organization/database.go:113-124 | Succeeds exactly at the row's version, on a valid code free among its siblings and a name; then the row has both at the next version with their event, and otherwise nothing changes |
| OrganizationStore.OrganizationStore.Transfer | domain/organization/database.go:126-153 | Succeeds exactly at the row's version, under no parent or a standing one outside the organization's subtree whose children leave its code free; then the row has that parent at the next version with its event, and otherwise nothing changes |
| OrganizationStore.OrganizationStore.Delete | domain/organization/database.go:155-167 | Succeeds exactly at the row's version where no child and no other table's row references it; then the row is gone with an event at that version, and otherwise nothing changes |
| OrganizationStore.OrganizationStore.FindSeeded | domain/organization/statements/find_seeded.sql:1-6 | The sibling with the code, or none exactly when none stands |
| OrganizationStore.OrganizationStore.SeedOne | domain/organization/database.go:240-265 | Inserts its parent, code, and name with the event that carries them exactly where no sibling has the code, and otherwise finds it, changing nothing |
| OrganizationStore.StandsAlready | domain/organization/database.go:206-238 | Where every row of the file stands, the next row's sibling is found under the parent its code resolved to |
| OrganizationStore.OrganizationStore.Apply | domain/organization/database.go:206-238 | Succeeds exactly on a well-formed file, which then stands whole under its declared parents, and otherwise answers the first defect in file order; rows there before are unchanged, each creation is a row of the file, and the count is the table's growth and the creations committed |
| OrganizationStore.OrganizationStore.Seed | data/seed.go:166-186 | A failure answers the file's first defect and leaves the table and the outbox as they were; over a seeded table nothing is inserted |
| OrganizationStore.SeedTwice | domain/organization/database.go:206-238 | A second run of the file inserts nothing and commits nothing |
| TransferProtocol.UnlockedKeepsOutside | data/locks.go:16-19 | No unlocked create, edit, or delete brings a parent a walk found outside a subtree into it |
| TransferProtocol.CommitIsTransfer | domain/organization/database.go:126-153 | A locked transfer's update is the whole transfer at the moment it commits |
| TransferProtocol.AllLockedRuns | data/locks.go:28-41 | Over every interleaving of transfers' lock, walk, and update with unlocked commands, the graph stays a forest and every committed invariant holds |
| TransferProtocol.WithoutLockACycle | data/locks.go:16-19 | From an empty service, with no lock, two transfers that each pass their walk make each organization the other's parent |
| Paths.ComposedIsInjective | domain/organization/doc.go:1-7 | On any tree with sibling-unique labels and no separator in them, two lineages that compose one path are one lineage |
| Paths.EachNodeHasOnePath | domain/organization/statements/organization_view.sql:1-27 | On a forest each node has exactly one path |
| Paths.Descend | domain/document/database.go:74-87 | Walking names down finds the one lineage that has them, or none where no lineage has |
| Paths.ResolvePath | domain/document/database.go:74-87 | For every string, the walk a segment at a time finds exactly the node the lookup by whole path finds |
| Paths.ReportAndResolve | domain/document/storage.go:158-185 | The reported path is "/" exactly for the root; any other resolves from the root, by child name, to the directory that reported it |
| OrganizationPaths.CodesLabel | domain/organization/entities.go:19-21 | The code rule and the sibling-unique constraint give the walk the labels it needs |
| OrganizationPaths.PathsOverRuns | domain/organization/doc.go:1-7 | After any run of commands each organization has exactly one path and a path names at most one organization |
| OrganizationPaths.SeedOrganization | domain/document/database.go:74-87 | The organization a seed's path names is the one the lookup by path finds, with or without the leading separator |
| Documents.RunKeepsSound | domain/document/storage.go:93-156 | Every committed transaction, a client's, a seed's, or the sweep's, keeps the directories a forest, each top-level one bound to its organization, sibling names unique, and each file in a directory |
| DocumentScope.RunKeepsHomes | domain/document/storage.go:300-326 | No transaction takes a directory into or out of an organization's root: a successful move never does, and nothing else moves one |
| DocumentScope.CommandsAreIsolated | domain/document/storage.go:36-82 | An organization's command leaves every other organization's owner row, directories, and files exactly as they were |
| DocumentScope.ForeignAnswersAsAbsent | domain/document/storage.go:36-82 | A command naming a directory or file outside its root is refused the one way, whatever stands under the id and at whatever version, and as it is refused for every id no row holds |
| DocumentScope.ForeignDestination | domain/document/storage.go:314-317 | A move to a directory outside the root answers alike for every such directory |
| DocumentScope.AnothersIsForeign | domain/document/storage.go:36-48 | Another organization's directories and files are outside the root |
| DocumentAnswers.ScopeIsExact | domain/document/storage.go:36-64 | The scope check finds a directory exactly where the reference is the root's alias or an id within the organization's root, and otherwise answers the missing row without a root and not found with one |
| DocumentAnswers.EnsureRootAnswers | domain/document/storage.go:93-131 | A root is found where it is bound, and otherwise created where the organization stands and the id is free, its event showing it without a parent, named "/", at version 1 |
| DocumentAnswers.CreateAnswers | domain/document/storage.go:133-156 | A create stores the name under the directory its reference names, active at version 1, and its event carries them; which check refuses it otherwise |
| DocumentAnswers.DeleteAnswers | domain/document/storage.go:238-257 | A plain delete removes an empty directory at the version it names, with its owner row if it is the root, and its event names the directory, the organization, and that version |
| DocumentAnswers.MarkAnswers | domain/document/storage.go:259-298 | A mark commits at the directory's version, or at any where it is deleting: each active directory and each file beneath it is deleting at its next version, nothing else has changed, and the event is the directory's alone |
| DocumentAnswers.MoveAnswers | domain/document/storage.go:300-326 | A move gives the directory the parent its reference names, the name, and the next version, and nothing else, and its event carries them; which check refuses it otherwise |
| DocumentAnswers.BeginAnswers | domain/document/storage.go:343-348 | An upload begins with a pending row of its directory, name, and content type at version 1, exactly where the name is valid and free and the directory open |
| DocumentAnswers.CompleteAnswers | domain/document/messaging.go:86-95 | A completion makes a pending row available with its object's size and tag at its next version, and its event carries the row field by field |
| DocumentAnswers.DeleteFileAnswers | domain/document/storage.go:378-395 | A file's delete leaves it deleting at the next version with one event at that version, exactly at the version it names; a retry changes nothing at any |
| DocumentAnswers.MoveFileAnswers | domain/document/storage.go:397-422 | A file's move gives it the directory its reference names, the name, and the next version, and its event carries the row; which check refuses it otherwise |
| DocumentAnswers.NamesNothing | domain/document/storage.go:36-82 | A request whose directory, file, or destination is not in the organization's root is refused with the missing row or not found, and a move of the root as such |
| DocumentAnswers.OnlyAtItsVersion | domain/document/storage.go:238-422 | A committed plain delete, first mark, move, file delete, or file move named its row's version, only a delete's retry being let through at any; every other version is refused as a mismatch |
| DocumentAnswers.SweptFiles | domain/document/storage.go:328-335 | Abandons, purges, and the sweep touch a file exactly where it is pending, deleting, or in a deleting directory, raise nothing, and change no other row |
| DocumentAnswers.SweptMark | domain/document/storage.go:259-263 | The sweep marks a directory exactly under one that is deleting, and raises nothing |
| DocumentAnswers.SweptDirectory | domain/document/storage.go:259-265 | The sweep removes a directory exactly where it is deleting and empty, with the owner row if it is a root, and raises nothing |
| DocumentReplay.DepthsAgree | domain/document/messaging.go:12-56 | A directory is reachable in the copy in so many steps exactly when it is reachable through active directories in as many |
| DocumentReplay.AgreeShows | domain/document/messaging.go:12-56 | A copy that agrees with the rows shows the same directories and available files and nothing else, and each one's parent or directory, name, content type, object, and version as its row has them |
| DocumentReplay.MarkAgrees | domain/document/storage.go:259-298 | A mark that raises one event for its directory alone, or none, keeps the copy in agreement |
| DocumentReplay.RunAgrees | domain/document/messaging.go:12-56 | Every transaction with the event it commits, or none, keeps the copy in agreement with the rows |
| DocumentRuns.BegunStaysHome | domain/document/storage.go:337-353 | Each file stays in the root of the organization its write was begun for, which is the one its completion names |
| DocumentRuns.SoundOverRuns | domain/document/storage.go:93-422 | Every run of transactions keeps the rows sound |
| DocumentRuns.EventTells | domain/document/messaging.go:63-123 | Every event says what its transaction did: a creation's, move's, or upload's data is the row as it then stands, and a deletion names the version its row was removed at or left deleting at |
| DocumentRuns.EventIsActors | domain/document/messaging.go:63-123 | Every event names the organization that acts, and a deletion's entry lies in that organization's root |
| DocumentRuns.StaleChangesNothing | domain/document/storage.go:238-422 | Wherever a run has come to, a guarded command at another version than its row's changes nothing and commits nothing, but for a delete's retry |
| DocumentRuns.RunsAreIsolated | domain/document/storage.go:36-82 | However many commands an organization runs, another's rows are as they were |
| DocumentRuns.AllRuns | domain/document/messaging.go:12-56 | After every run, races, refused commands, sweeps, abandons, and purges among them, replaying the events shows exactly the directories and available files the rows show, each under its own organization and field by field as its row has it |
| DocumentRuns.AllFreshRuns | domain/document/messaging.go:12-56 | So it does whenever each directory is created under an id of its own |
| DocumentRecreation.RecreationIsExact | domain/document/storage.go:455-472 | After a directory is inserted, by a create under a parent in view or as a root a write or a seed ensures, the views agree if and only if the copy laid nothing under its id |
| DocumentRecreation.MovedIntoViewIsExact | domain/document/storage.go:133-156 | After a create under a parent not in view, in an organization whose root stands, the views agree then and after the directory's move under the root if and only if the copy laid nothing under its id |
| DocumentRecreation.RerunLeaks | domain/document/storage.go:537-564 | A seed's rerun after a client's branch delete brings a swept directory back in the copy alone |
| DocumentOnce.AtMostOnce | domain/document/messaging.go:30-55 | Over every run, marks commit a directory's deletion once at most for each time it was created, and so do plain deletes, and both together where blobfs refuses a plain delete of a directory deleting already; a directory whose id is not used again is created once at most |
| DocumentOnce.FilesAtMostOnce | domain/document/messaging.go:86-120 | Over every run a file's upload and its deletion commit once at most for each time its write was begun, over all retries, marks, abandons, and sweeps |
| DocumentOnce.DeletionTakes | domain/document/storage.go:259-298 | A mark's deletion event is about a directory that was active before its transaction and is not after, a plain delete's about one whose row it removes, and nothing else commits one |
| DocumentVersions.DirStep | domain/document/messaging.go:63-84 | A transaction's event about a directory carries version 1 at its creation, the row's next version at a move or a mark, and the removed row's own at a plain delete; without an event a directory is left alone, removed, or marked with its branch |
| DocumentVersions.VersionsInOrder | domain/document/messaging.go:30-55 | Over every run, a directory's events carry 1, 2, and on from each creation, and a file's 2, 3, and on from each beginning of its write, with no gap, ending where the row's version does |
| MarkProtocol.LockedRunsKeepInv | domain/document/storage.go:266-278 | Over every interleaving of the scope checks, locks, reads, and statements of marks and moves with any other transaction, the rows stay sound, and each one's directories stay in the scope it checked and stand as it read them until its statement runs |
| MarkProtocol.FinishIsMark | domain/document/storage.go:279-298 | The locked steps, the scope check before the lock among them, are the whole mark transaction at the moment it commits |
| MarkProtocol.FinishIsMove | domain/document/storage.go:300-326 | A move's locked steps, its scope checks before the lock among them, are the whole move at the moment it commits |
| MarkProtocol.EventIffTaken | domain/document/storage.go:259-298 | Under the tree's lock a mark commits its directory's deletion, at the version the mark left, exactly when it takes that directory from active to deleting |
| MarkProtocol.LockedOnce | domain/document/storage.go:266-274 | Over every run with the lock, marks commit each directory's deletion once at most, whatever is raced in beneath it, unless its id is used again |
| MarkProtocol.RunKeepsClear | domain/document/storage.go:259-278 | Beneath a directory where nothing is active no create, delete, sweep, or file's transaction makes anything active but a create raced beneath it or the directory's own insert |
| MarkProtocol.MovedKeepsQuiet | domain/document/storage.go:300-326 | Nor does a move's update, its checks however stale and the tree no forest, that lands outside it |
| MarkProtocol.WithoutStragglerOnce | domain/document/storage.go:274-277 | Without the lock, over every run in which no create and no move lands beneath a directory after its mark, marks commit each directory's deletion once at most: the count guard is enough |
| MarkProtocol.WithoutLockTwice | domain/document/storage.go:274-278 | From an empty service, where the lock is a no-op, a create raced beneath the directory beside a concurrent first mark makes a second deletion event |
| MarkProtocol.WithoutLockAMoveToo | domain/document/storage.go:274-278 | So does a move that checked its destination before the marks and updates between them |
| DocumentPaths.NamesLabel | domain/document/entities.go:253-260 | The name rule and sibling-unique names make the directories a labelled forest |
| DocumentPaths.ReportPath | domain/document/storage.go:158-185 | The reported path begins with the separator, is "/" exactly for the document root, and otherwise leads from the root to the directory |
| DocumentPaths.LeadsToOne | domain/document/storage.go:158-185 | A path leads from the root to one directory at most |
| DocumentStore.DocumentStore.Inside | domain/document/storage.go:50-64 | The alias, the root's own id, or an id within the root; any other is not found |
| DocumentStore.DocumentStore.Resolve | domain/document/storage.go:36-48 | The owner row first, then the id within it: what it resolves lies within the organization's root |
| DocumentStore.DocumentStore.ResolveFile | domain/document/storage.go:66-82 | The file when its directory lies within the root, and otherwise the missing row or not found |
| DocumentStore.DocumentStore.EnsureDocumentRoot | domain/document/storage.go:93-131 | Creates the root with its owner row and its event in one transaction exactly where the organization stands and has none, or finds it and commits nothing |
| DocumentStore.DocumentStore.CreateDirectory | domain/document/storage.go:133-156 | The root's transaction first under the alias, and then the row with the name under the parent referred to and its event, or the create's own refusal with nothing committed |
| DocumentStore.DocumentStore.ReadDirectory | domain/document/storage.go:158-185 | The row within the scope, with the path that leads back to it |
| DocumentStore.DocumentStore.DeleteDirectory | domain/document/storage.go:238-257 | Removes the empty directory at its version, its owner row with it if it is the root, and commits one event at that version, or changes nothing and answers why |
| DocumentStore.DocumentStore.MarkDeleting | domain/document/storage.go:259-298 | Marks exactly the directory and everything beneath it, and counts the directories it took from active |
| DocumentStore.DocumentStore.MarkBranch | domain/document/storage.go:279-298 | The mark of the directory referred to at its version, with its event only where it is the directory's first |
| DocumentStore.DocumentStore.MoveDirectory | domain/document/storage.go:300-326 | Refused for the root, out of scope, at a stale version, into its own subtree, or under a taken name; otherwise the row has the parent, the name, and the next version with its event, and nothing else has changed |
| DocumentStore.DocumentStore.UploadFile | domain/document/storage.go:328-353 | A stored and completed upload is one available row of its directory, name, content type, and object at version 2 and one event that carries them; a write that fails after its pending row commits no event, its row gone, or left pending or deleting as the abandon left it |
| DocumentStore.DocumentStore.Begin | domain/document/storage.go:343-348 | The pending row of the directory, name, and content type in scope, or the refusal |
| DocumentStore.DocumentStore.CompleteUpload | domain/document/messaging.go:86-95 | The row available with its object's size and tag at its next version and its event, field by field, in the same transaction, or the refusal where a delete or its directory's mark came first, with nothing changed |
| DocumentStore.DocumentStore.DeleteFile | domain/document/storage.go:378-395 | Succeeds exactly at the row's version or on a retry: the row deleting at the next version with its event, none for a retry, and gone where the purge succeeds; any other version changes nothing |
| DocumentStore.DocumentStore.MoveFile | domain/document/storage.go:397-422 | Exactly at the row's version, under a valid and free name in an active directory of the same root: the row has that directory, the name, and the next version with its event; otherwise nothing changes |
| FirstWrite.NextKeepsLocked | domain/document/storage.go:93-131 | At every step of concurrent first writes an uncommitted root is alone and no root has committed beside it |
| FirstWrite.StepEvent | domain/document/storage.go:117-126 | A step's event is the committing creation's, a delete's or a mark's of the root, or a write's own under the bound root; a loser's commits none |
| FirstWrite.AllRuns | domain/document/storage.go:93-131 | Over every interleaving with deletes, marks, and sweeps of the root, one root at most is bound and the events leave it until a mark takes it; without a delete every successful caller has the same root, whose creation committed once and before any write's own event |
| FirstWrite.AloneIsWhole | domain/document/storage.go:93-131 | With no other insert in flight the steps in a row are the root's whole transaction: the root found, or created and bound under the id with its one event |
| DocumentSeedRuns.SeedEntriesKeep | domain/document/storage.go:474-535 | Wherever a run stops, rows only joined, under the entries' own places, and each entry created or completed is one event and one in the count |
| DocumentSeedRuns.EnsureAnswers | domain/document/storage.go:537-564 | An entry's directory is found by name whoever made it, its own entries going on in it unless it is deleting, and otherwise created under the entry's id with its event where the id is free and the parent active |
| DocumentSeedRuns.StoreAnswers | domain/document/storage.go:520-534 | An entry's file is stored with its name, content type, and content and one event exactly where it is the seed's own pending row or nothing has its name or id, and is otherwise left |
| DocumentSeedResume.GrowsElsewhere | domain/document/storage.go:477-487 | What an entry's run adds leaves every sibling's place as it was |
| DocumentSeedResume.SettledStays | domain/document/storage.go:489-497 | An entry that needs nothing more still needs nothing after other entries have run |
| DocumentSeedResume.Resumes | domain/document/storage.go:474-535 | Run to its end after any stop, a list of entries reaches the rows and the events one run reaches |
| DocumentSeedTree.TreeResumes | domain/document/storage.go:455-472 | So does a hierarchy, its root's transaction among the places to stop |
| DocumentSeedTree.AnyStopsResume | domain/document/storage.go:455-472 | However many runs stopped before |
| DocumentSeedTree.SecondRunIsNothing | domain/document/storage.go:455-461 | A second run creates, changes, and commits nothing |
| DocumentSeedTree.CreatesAll | domain/document/storage.go:474-535 | Where nothing of the entries stands, a run creates each of them under its own id |
| DocumentSeedTree.EmptySchemaCounts | tools/slab/scenarios/storage.go:104-120 | On a schema that holds none of it the count is every directory and file with the root excluded, with an event for each and one more for the root |
| DocumentSeedTree.SeedDirectoryIsCreate | domain/document/storage.go:537-564 | A directory the seed creates is the create command's transaction, with its event |
| DocumentSeedTree.SeedFileIsUpload | domain/document/storage.go:520-525 | A file the seed writes is an upload's two transactions, with its event |
| DocumentSeedTree.AbandonedResumesIfRemoved | domain/document/storage.go:526-534 | After a failed write is abandoned a rerun stores the file if and only if the abandon removed its row; while the row stands deleting the rerun leaves it and reports no failure |
| DocumentSeeder.Seeder.SeedDirectory | domain/document/storage.go:537-564 | Finds the directory by name, creates it under the entry's id with its event, or leaves an entry the seed does not own |
| DocumentSeeder.Seeder.SeedFile | domain/document/storage.go:520-534 | Begins, resumes, or leaves the file, and completes only what is the seed's, with its content and an event that carries the row |
| DocumentSeeder.Seeder.SeedOne | domain/document/storage.go:489-535 | One entry with its own entries, refused as a defect exactly when it is of both kinds or neither or its name is not valid; a file entry is stored as its one file |
| DocumentSeeder.Seeder.SeedAll | domain/document/storage.go:474-487 | The entries in file order, stopping at the first defect with the count so far |
| DocumentSeeder.Seeder.SeedHierarchy | domain/document/storage.go:455-472 | The root, not counted, then its entries |
| DocumentSeeder.Seeder.Write | domain/document/storage.go:436-453 | Every hierarchy in file order; the outbox only grows |
| DocumentSeedWrite.RestStaysSettled | domain/document/storage.go:444-451 | One organization's hierarchy stays done while the others' run |
| DocumentSeedWrite.WriteResumes | domain/document/storage.go:436-453 | For any number of hierarchies, every start, and every stop, a rerun reaches the rows one run would have reached, with its events in its order, and counts the rest |
| StateSeed.WriteLogos | domain/organization/storage.go:174-191 | Each logo is written under the organization its path names; the write fails exactly where some path names nobody |
| StateSeed.WriteDocuments | domain/document/storage.go:436-472 | Each hierarchy is written under the organization its path names, up to the first path that names nobody or the first defect, whose failure it answers with the count so far |
| StateSeed.Seed | data/seed.go:144-199 | A key nothing reads is refused before anything is written; a failure among the rows rolls all of them back and writes no file; otherwise the rows stand, the files are written up to the first failure, and each count is what its part gained |
| StateSeed.SeedAgain | data/seed.go:144-155 | A state seeded again over itself fails nowhere, counts nothing, and leaves the organizations, the logos' rows, objects, and images, the documents, and the events equal to what the first run left |
| Logos.NextKeepsCore | domain/organization/storage.go:27-160 | Every step of every interleaving of PUTs, DELETEs, sweeps, and a seed keeps the bindings, the objects, and what each client has in hand |
| Logos.ActivationKeepsCore | domain/organization/storage.go:68-97 | The activation, bound or rolled back, keeps one active image for an organization and one image for a file |
| Logos.DeletionKeepsCore | domain/organization/storage.go:114-137 | A DELETE that committed on a stale read removes nothing of another logo's |
| Logos.RemoveKeepsCore | domain/organization/storage.go:299-303 | The file a refused activation retires is bound by no image |
| LogoRuns.NextKeepsShows | domain/organization/messaging.go:38-46 | Each committed logo event keeps the replayed map equal to the active images; a replaced logo needs no deletion event |
| LogoRuns.AllRuns | domain/organization/storage.go:48-160 | Over all interleavings: one active image for an organization, each bound file available with its object stored, and the events replay to the active logos |
| LogoRuns.AllEventsTell | domain/organization/messaging.go:38-46 | Over all interleavings each committed logo event says what its transaction did: an upload's file is its organization's image, available at the event's version, and a deletion's is bound by none and deleting at that version |
| LogoRuns.NothingLeaks | domain/organization/storage.go:34-47 | With no activation in flight, every available file, a PUT's or a seed's, is bound, unless the client that stored it answered with its removal's own failure; any other file is pending or deleting |
| LogoReuse.ReuseIsExact | domain/organization/storage.go:201-245 | Wherever a seed starts on a file whose delete is not under way, some run of the clients' own steps undoes what it binds if and only if a removal of the file it was has yet to reach the object store, or another organization's client read that file as its active logo and has yet to release it |
| LogoReuse.WithoutGuardAnObjectIsLost | domain/organization/storage.go:201-208 | From an empty service: a fixed id seeded again while a slow removal of its old file is still to come ends bound with no object |
| LogoStore.LogoStore.PutLogo | domain/organization/storage.go:48-98 | Beside any other clients, stores the file available at version 2, replaces the active logo, commits its one event, and retires the logo replaced at its next version and no other file; a missing organization or a failed put changes nothing that lasts |
| LogoStore.LogoStore.Activate | domain/organization/storage.go:69-89 | The hold, the read, and the commit as the protocol's three steps, releasing exactly the logo replaced |
| LogoStore.LogoStore.DeleteLogo | domain/organization/storage.go:114-137 | Removes the image, leaves its file deleting at its next version or gone, and commits one event at that version, or answers the missing row |
| LogoStore.LogoStore.Release | domain/organization/storage.go:152-160 | The image gone and the file deleting at its next version |
| LogoStore.LogoStore.Purge | domain/organization/storage.go:139-150 | The object and then the row gone |
| LogoStore.LogoStore.StoreSeed | domain/organization/storage.go:232-245 | The seed's file under its fixed id: begun, resumed, found complete, or left where its delete is under way, at the version each leaves it |
| LogoStore.LogoStore.SeedLogo | domain/organization/storage.go:193-303 | Attaches, with one event at the file's version, exactly where the organization has no logo, no image binds the file, and its delete is not under way; an organization with a logo is left as it is, and a missing one is answered |
| LogoStore.LogoStore.WriteLogos | domain/organization/storage.go:174-191 | The count is the images and the events gained, up to the first row whose organization is missing; every image there before stays, and a second run counts none |
| Service.NextKeepsInv | admin/database/messaging.go:10-39 | Every command, publish, drop, and reset event, requests between a drop and its event among them, keeps the rows what the events since the last drop replay to |
| Service.AllRuns | admin/database/messaging.go:10-39 | Over every run at all, the commands' events since the last drop replay to the organizations, the active logos, and the documents the rows show |
| Organizations.UndoneIsNothing | domain/organization/messaging.go:54-63 | Events replay to no organization if and only if they delete each organization they write |
| Service.WithoutOrganizations | admin/database/messaging.go:25-39 | Where no organization stands, no logo is bound and no document row stands either |
| Service.ResetIsExact | admin/database/messaging.go:25-39 | After every run, the reset's event makes a consumer right if and only if the events the outbox holds since the drop delete each organization they write |
| Service.RightIsExact | admin/database/messaging.go:10-39 | A run leaves a consumer of the published and then the pending events right at every moment outside its resets' windows, however many events their drops lose, if and only if what commits in each window deletes each organization it writes |
| Service.AllGatedRuns | admin/database/messaging.go:10-39 | So every run with no request between a drop and its event leaves a consumer right throughout |
| Service.UngatedCreateIsLost | admin/database/messaging.go:25-39 | An organization created between the drop and the event is in the rows and in no consumer's copy |

## Left out

- HTTP handlers, request decoding, paging, listings, downloads, and headers: plumbing over an SDK that is not part of this model.
- Configuration, telemetry, sweep metrics, the composition root, status mapping, and directives: each is settled by reading its branches.
- The rest of slab, its commands, clients, and scenarios, and the integration harness.
- Logos.Next's seed does not look for an active logo before it writes: that read is on the pool and decides nothing once another client activates, so the interleavings let the seed go on either way; `LogoStore.SeedLogo` has the read.
- Image sniffing, fixtures, JSON decoding, UUID syntax, timestamps, and real time: ids are abstract and a seed's rows are already decoded.
- A process that stops between a logo's completion and its activation: the code makes no claim for it.
- Logos.NextKeepsCore: one seed at a time; two seeds of one logo at once depend on whether a hold or a bind advances the file's version, which is not visible. A seed starts only where nothing endangers its file, the condition `LogoReuse.ReuseIsExact` shows to be exact.
- LogoRuns.AllRuns: the same assumptions as `Logos.NextKeepsCore`.
- LogoStore.LogoStore.PutLogo: run to its end with other clients wherever they have come to, but for one that holds the organization's active logo, whose hold it would wait for; `Logos.Next` interleaves the steps.
- LogoStore.LogoStore.Activate: the same.
- LogoStore.LogoStore.DeleteLogo: the same.
- LogoStore.LogoStore.StoreSeed: the same assumptions as `Logos.NextKeepsCore`.
- LogoStore.LogoStore.SeedLogo: the same assumptions as `Logos.NextKeepsCore`.
- LogoStore.LogoStore.WriteLogos: the same assumptions as `Logos.NextKeepsCore`, for every row's file.
- StateSeed.Seed: the logos' assumptions as `Logos.NextKeepsCore`, for every file.
- A logo's content type, size, and entity tag, in its row and its event: no protocol reads them.
- LogoRuns.NothingLeaks: a process that stops between a completion and its activation is still in flight here.
- DocumentRuns.AllRuns: runs in which a directory is created again under a used id only where the copy lays nothing under it, the condition `DocumentRecreation.RecreationIsExact` and `DocumentRecreation.MovedIntoViewIsExact` show to be exact wherever the organization's root stands; it is sufficient alone for a create beneath a root that is deleting.
- Service.AllRuns: the same condition on used ids, with respect to the events since the last drop, and the logos' assumptions as `Logos.NextKeepsCore`; a drop waits for transactions that hold or have read a logo.
- TransferProtocol.AllLockedRuns: a create takes an id no transfer in flight names, since the engine mints it.
- MarkProtocol.LockedRunsKeepInv: a directory a mark or a move in flight names is not removed and created again under its id meanwhile.
- DocumentSeedWrite.WriteResumes: no two siblings of one name and no organization listed twice, since two entries of one name are one directory on a rerun; a file left deleting by a failed abandon is the exception `DocumentSeedTree.AbandonedResumesIfRemoved` states.
- DocumentSeed's rerun of one directory's insert after a concurrent seed's violation: a concurrent seed's transaction is one of the transactions `DocumentRuns` interleaves, and a seed's own run is modelled alone.
- The order in which blobfs weighs a move's refusals against each other: the model picks one.
