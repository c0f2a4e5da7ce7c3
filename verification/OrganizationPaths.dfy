/** The organizations' paths: the read model composes each row's from the codes of its
    lineage, and a seed resolves one by its codes. */
module OrganizationPaths {
  import opened Forest
  import opened Events
  import opened Organizations
  import Paths

  function TreeOf(t: Table): Paths.Tree {
    map id | id in t :: Paths.Node(t[id].parent, t[id].code)
  }

  lemma ValidCodeHasNoSlash(code: string)
    requires ValidCode(code)
    ensures code != "" && '/' !in code
  {
    forall i | 0 <= i < |code|
      ensures code[i] != '/'
    {
      assert i > 0 ==> CodeCharAt(code, i);
    }
  }

  /** The code rule and the sibling-unique constraint are what the walk needs. */
  lemma CodesLabel(t: Table)
    requires Sound(t)
    ensures Paths.Labelled(TreeOf(t)) && IsForest(Paths.ParentsIn(TreeOf(t)))
  {
    assert Paths.ParentsIn(TreeOf(t)) == ParentsOf(t);
    forall id | id in t
      ensures t[id].code != "" && '/' !in t[id].code
    {
      ValidCodeHasNoSlash(t[id].code);
    }
  }

  /** After any run of commands, each organization has exactly one path and a path names at
      most one organization. */
  lemma PathsOverRuns(commands: seq<Command>, path: string, a: Id, b: Id)
    ensures var t := TreeOf(Exec(INITIAL, commands).table);
            && (Paths.Named(t, path, a) && Paths.Named(t, path, b) ==> a == b)
            && (a in t ==> exists own :: Paths.Named(t, own, a) && forall other :: Paths.Named(t, other, a) ==> other == own)
  {
    hide Paths.Named, Organizations.Exec, Sound;
    AllRuns(commands);
    var t := Exec(INITIAL, commands).table;
    CodesLabel(t);
    if Paths.Named(TreeOf(t), path, a) && Paths.Named(TreeOf(t), path, b) {
      Paths.NamedIsUnique(TreeOf(t), path, a, b);
    }
    if a in t {
      Paths.EachNodeHasOnePath(TreeOf(t), a);
    }
  }

  /** Resolves the path a document or logo seed names against the organizations. */
  method SeedOrganization(t: Table, path: string) returns (found: Option<Id>)
    requires Sound(t)
    ensures found.Some? ==> found.value in t && Paths.Named(TreeOf(t), "/" + Paths.TrimSlash(path), found.value)
    ensures forall id: Id :: Paths.Named(TreeOf(t), "/" + Paths.TrimSlash(path), id) ==> found == Some(id)
  {
    CodesLabel(t);
    found := Paths.ResolvePath(TreeOf(t), path);
  }
}
