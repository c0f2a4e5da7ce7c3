/** Parent pointers, as a table of rows that each name their parent holds them: the
    organization tree and the directory tree both. TOP stands for the null parent of a
    top-level row. */
module Forest {

  type Id = nat
  const TOP: Id := 0
  type Parents = map<Id, Id>

  /** The ancestor n steps up from d; a walk that leaves the rows stays where it is. */
  ghost function Up(p: Parents, d: Id, n: nat): Id
    decreases n
  {
    if n == 0 || d !in p then d else Up(p, p[d], n - 1)
  }

  /** Whether a is d or one of its ancestors. */
  ghost predicate Within(p: Parents, d: Id, a: Id) {
    exists n: nat :: Up(p, d, n) == a
  }

  /** Every row's parent is a row or TOP, as the foreign key keeps it. */
  ghost predicate Referential(p: Parents) {
    TOP !in p && forall d :: d in p ==> p[d] == TOP || p[d] in p
  }

  /** A forest: every walk up ends at the top. */
  ghost predicate IsForest(p: Parents) {
    Referential(p) && forall d :: d in p ==> Within(p, d, TOP)
  }

  lemma {:induction false} UpAdd(p: Parents, d: Id, m: nat, n: nat)
    ensures Up(p, Up(p, d, m), n) == Up(p, d, m + n)
    decreases m
  {
    if m > 0 && d in p {
      UpAdd(p, p[d], m - 1, n);
    } else if d !in p {
      UpOutside(p, d, n);
      UpOutside(p, d, m + n);
    }
  }

  lemma UpOutside(p: Parents, d: Id, n: nat)
    requires d !in p
    ensures Up(p, d, n) == d
  {
  }

  lemma WithinSelf(p: Parents, d: Id)
    ensures Within(p, d, d)
  {
    assert Up(p, d, 0) == d;
  }

  lemma WithinStep(p: Parents, d: Id, a: Id)
    requires d in p
    ensures Within(p, d, a) <==> d == a || Within(p, p[d], a)
  {
    if Within(p, d, a) {
      var n: nat :| Up(p, d, n) == a;
      if n > 0 {
        assert Up(p, p[d], n - 1) == a;
      }
    }
    if Within(p, p[d], a) {
      var n: nat :| Up(p, p[d], n) == a;
      assert Up(p, d, n + 1) == a;
    }
    if d == a {
      WithinSelf(p, d);
    }
  }

  lemma WithinOutside(p: Parents, d: Id, a: Id)
    requires d !in p
    ensures Within(p, d, a) <==> d == a
  {
    WithinSelf(p, d);
    if Within(p, d, a) {
      var n: nat :| Up(p, d, n) == a;
      UpOutside(p, d, n);
    }
  }

  lemma WithinTransitive(p: Parents, d: Id, a: Id, b: Id)
    requires Within(p, d, a) && Within(p, a, b)
    ensures Within(p, d, b)
  {
    var m: nat :| Up(p, d, m) == a;
    var n: nat :| Up(p, a, n) == b;
    UpAdd(p, d, m, n);
  }

  /** Two ancestors of one row lie one above the other. */
  lemma WithinLinear(p: Parents, d: Id, a: Id, b: Id)
    requires Within(p, d, a) && Within(p, d, b)
    ensures Within(p, a, b) || Within(p, b, a)
  {
    var m: nat :| Up(p, d, m) == a;
    var n: nat :| Up(p, d, n) == b;
    if m <= n {
      UpAdd(p, d, m, n - m);
    } else {
      UpAdd(p, d, n, m - n);
    }
  }

  // ---- Ids ----

  /** There is always an id not used yet. */
  lemma BeyondMax(s: set<Id>)
    ensures exists id: Id :: id !in s
  {
    var n := UpperBound(s);
    assert n !in s;
  }

  ghost function UpperBound(s: set<Id>): (n: Id)
    ensures forall id :: id in s ==> id < n
  {
    if s == {} then 0 else
      var id :| id in s;
      var rest := UpperBound(s - {id});
      assert forall x :: x in s ==> x == id || x in s - {id};
      if id < rest then rest else id + 1
  }

  // ---- Cycles ----

  /** A row that is its own proper ancestor never reaches the top. */
  lemma CycleNeverTop(p: Parents, d: Id, c: nat)
    requires TOP !in p && d in p && c > 0 && Up(p, d, c) == d
    ensures !Within(p, d, TOP)
  {
    if Within(p, d, TOP) {
      var n: nat :| Up(p, d, n) == TOP;
      Around(p, d, c, n);
      var rest: nat := c * n - n;
      UpOutside(p, TOP, rest);
      UpAdd(p, d, n, rest);
    }
  }

  lemma {:induction false} Around(p: Parents, d: Id, c: nat, k: nat)
    requires Up(p, d, c) == d && c > 0
    ensures Up(p, d, c * k) == d && c * k >= k
  {
    if k > 0 {
      Around(p, d, c, k - 1);
      UpAdd(p, d, c * (k - 1), c);
      assert c * (k - 1) + c == c * k;
    }
  }

  /** In a forest no row is its own proper ancestor. */
  lemma NoCycle(p: Parents, d: Id, c: nat)
    requires IsForest(p) && d in p && c > 0
    ensures Up(p, d, c) != d
  {
    if Up(p, d, c) == d {
      CycleNeverTop(p, d, c);
    }
  }

  // ---- Changes ----

  /** A change to one row leaves every walk that does not pass it as it was. */
  lemma {:induction false} UpElsewhere(p: Parents, q: Parents, x: Id, d: Id, n: nat)
    requires forall y :: y != x ==> (y in p <==> y in q) && (y in p ==> p[y] == q[y])
    requires !Within(p, d, x)
    ensures Up(q, d, n) == Up(p, d, n)
    decreases n
  {
    WithinSelf(p, d);
    if n > 0 && d in p {
      WithinStep(p, d, x);
      UpElsewhere(p, q, x, p[d], n - 1);
    }
  }

  lemma WithinElsewhere(p: Parents, q: Parents, x: Id, d: Id, a: Id)
    requires forall y :: y != x ==> (y in p <==> y in q) && (y in p ==> p[y] == q[y])
    requires !Within(p, d, x)
    ensures Within(q, d, a) == Within(p, d, a)
  {
    if Within(p, d, a) {
      var n: nat :| Up(p, d, n) == a;
      UpElsewhere(p, q, x, d, n);
    }
    if Within(q, d, a) {
      var n: nat :| Up(q, d, n) == a;
      UpElsewhere(p, q, x, d, n);
    }
  }

  /** After a change to one row, whatever reaches d reached it before, unless the row now leads
      there and did not. */
  lemma {:induction false} ReachedBefore(p: Parents, q: Parents, x: Id, d: Id, y: Id, n: nat)
    requires forall z :: z != x ==> (z in p <==> z in q) && (z in p ==> p[z] == q[z])
    requires x in q && x != d ==> !Within(p, q[x], d)
    requires Up(q, y, n) == d
    ensures Within(p, y, d)
    decreases n
  {
    WithinSelf(p, d);
    if y != d {
      assert n > 0 && y in q;
      ReachedBefore(p, q, x, d, q[y], n - 1);
      if y != x {
        WithinStep(p, y, d);
      }
    }
  }

  /** No row lies beneath an id that is no row, apart from that id itself. */
  lemma {:induction false} NothingBeneath(p: Parents, d: Id, x: Id, n: nat)
    requires Referential(p) && x !in p && x != TOP && d != x && Up(p, d, n) == x
    ensures false
    decreases n
  {
    if n > 0 && d in p {
      NothingBeneath(p, p[d], x, n - 1);
    }
  }

  lemma NoneWithin(p: Parents, d: Id, x: Id)
    requires Referential(p) && x !in p && x != TOP && d != x
    ensures !Within(p, d, x)
  {
    if Within(p, d, x) {
      var n: nat :| Up(p, d, n) == x;
      NothingBeneath(p, d, x, n);
    }
  }

  /** Inserting a row under a row or the top keeps the forest, and every other row where
      it stands. */
  lemma Insert(p: Parents, x: Id, parent: Id)
    requires IsForest(p) && x !in p && x != TOP && (parent == TOP || parent in p)
    ensures IsForest(p[x := parent])
    ensures forall d, a :: d != x ==> Within(p[x := parent], d, a) == Within(p, d, a)
    ensures forall a :: Within(p[x := parent], x, a) <==> a == x || Within(p, parent, a)
  {
    var q := p[x := parent];
    forall d, a | d != x
      ensures Within(q, d, a) == Within(p, d, a)
    {
      NoneWithin(p, d, x);
      WithinElsewhere(p, q, x, d, a);
    }
    forall a
      ensures Within(q, x, a) <==> a == x || Within(p, parent, a)
    {
      WithinStep(q, x, a);
    }
    WithinSelf(p, TOP);
  }

  /** Removing a row without children keeps the forest, and every other row where it
      stands. */
  lemma Remove(p: Parents, x: Id)
    requires IsForest(p) && x in p && forall d :: d in p ==> p[d] != x
    ensures IsForest(p - {x})
    ensures forall d, a :: d != x ==> Within(p - {x}, d, a) == Within(p, d, a)
  {
    var q := p - {x};
    forall d, a | d != x
      ensures Within(q, d, a) == Within(p, d, a)
    {
      ChildlessIsTop(p, d, x);
      WithinElsewhere(p, q, x, d, a);
    }
  }

  lemma ChildlessIsTop(p: Parents, d: Id, x: Id)
    requires d != x && forall y :: y in p ==> p[y] != x
    ensures !Within(p, d, x)
  {
    if Within(p, d, x) {
      var n: nat :| Up(p, d, n) == x;
      ChildlessWalk(p, d, x, n);
    }
  }

  lemma {:induction false} ChildlessWalk(p: Parents, d: Id, x: Id, n: nat)
    requires d != x && (forall y :: y in p ==> p[y] != x)
    ensures Up(p, d, n) != x
    decreases n
  {
    if n > 0 && d in p {
      ChildlessWalk(p, p[d], x, n - 1);
    }
  }

  /** Moving a row under a parent outside its own subtree keeps the forest; a parent inside
      it makes a cycle. The check before the move is exactly what keeps it. */
  lemma Reparent(p: Parents, x: Id, parent: Id)
    requires IsForest(p) && x in p && (parent == TOP || parent in p)
    ensures IsForest(p[x := parent]) <==> !Within(p, parent, x)
  {
    var q := p[x := parent];
    if Within(p, parent, x) {
      var n: nat :| Up(p, parent, n) == x && forall k: nat :: k < n ==> Up(p, parent, k) != x by {
        var m: nat :| Up(p, parent, m) == x;
        var n := First(p, parent, x, m);
      }
      WalkBefore(p, q, x, parent, n);
      assert Up(q, x, n + 1) == x;
      CycleNeverTop(q, x, n + 1);
    } else {
      forall d | d in q
        ensures Within(q, d, TOP)
      {
        MovedRooted(p, x, parent, d);
      }
    }
  }

  lemma {:induction false} First(p: Parents, d: Id, x: Id, m: nat) returns (n: nat)
    requires Up(p, d, m) == x
    ensures n <= m && Up(p, d, n) == x && forall k: nat :: k < n ==> Up(p, d, k) != x
    decreases m
  {
    if k: nat :| k < m && Up(p, d, k) == x {
      n := First(p, d, x, k);
    } else {
      n := m;
    }
  }

  lemma {:induction false} WalkBefore(p: Parents, q: Parents, x: Id, d: Id, n: nat)
    requires forall y :: y != x ==> (y in p <==> y in q) && (y in p ==> p[y] == q[y])
    requires forall k: nat :: k < n ==> Up(p, d, k) != x
    ensures Up(q, d, n) == Up(p, d, n)
    decreases n
  {
    if n > 0 {
      assert Up(p, d, 0) != x;
    }
    if n > 0 && d in p {
      forall k: nat | k < n - 1
        ensures Up(p, p[d], k) != x
      {
        assert Up(p, d, k + 1) != x;
      }
      WalkBefore(p, q, x, p[d], n - 1);
    }
  }

  lemma MovedRooted(p: Parents, x: Id, parent: Id, d: Id)
    requires IsForest(p) && x in p && (parent == TOP || parent in p) && !Within(p, parent, x)
    requires d in p
    ensures Within(p[x := parent], d, TOP)
  {
    var n: nat :| Up(p, d, n) == TOP;
    MovedWalk(p, x, parent, d, n);
  }

  lemma {:induction false} MovedWalk(p: Parents, x: Id, parent: Id, d: Id, n: nat)
    requires IsForest(p) && x in p && (parent == TOP || parent in p) && !Within(p, parent, x)
    requires Up(p, d, n) == TOP
    ensures Within(p[x := parent], d, TOP)
    decreases n
  {
    var q := p[x := parent];
    if d == x {
      WithinElsewhere(p, q, x, parent, TOP);
      WithinSelf(p, TOP);
      WithinStep(q, x, TOP);
    } else if n > 0 && d in p {
      MovedWalk(p, x, parent, p[d], n - 1);
      WithinStep(q, d, TOP);
    } else {
      WithinSelf(q, d);
    }
  }

  /** After a move, a row lies within a row that held both the moved row and its new parent
      exactly as before. */
  lemma ReparentWithin(p: Parents, x: Id, parent: Id, d: Id, a: Id)
    requires IsForest(p) && x in p && parent in p && !Within(p, parent, x)
    requires a != x && Within(p, x, a) == Within(p, parent, a)
    ensures Within(p[x := parent], d, a) == Within(p, d, a)
  {
    var q := p[x := parent];
    Reparent(p, x, parent);
    WithinElsewhere(p, q, x, parent, a);
    WithinStep(q, x, a);
    if Within(p, d, x) {
      var n: nat :| Up(p, d, n) == x;
      BelowMoved(p, q, x, a, d, n);
    } else {
      WithinElsewhere(p, q, x, d, a);
    }
  }

  lemma {:induction false} BelowMoved(p: Parents, q: Parents, x: Id, a: Id, d: Id, n: nat)
    requires forall y :: y != x ==> (y in p <==> y in q) && (y in p ==> p[y] == q[y])
    requires Within(q, x, a) == Within(p, x, a) && Up(p, d, n) == x
    ensures Within(q, d, a) == Within(p, d, a)
    decreases n
  {
    if d != x {
      assert n > 0 && d in p;
      assert d in q && q[d] == p[d];
      BelowMoved(p, q, x, a, p[d], n - 1);
      WithinStep(p, d, a);
      WithinStep(q, d, a);
    }
  }

  // ---- The ancestor walk a cycle check and a scope check run ----

  /** Walks candidate's ancestor chain and looks for node in it, node itself included; a
      candidate that is no row has no chain. The walk ends, since the rows are a forest. */
  method InSubtree(p: Parents, node: Id, candidate: Id) returns (found: bool)
    requires IsForest(p)
    ensures found <==> candidate in p && node in p && Within(p, candidate, node)
  {
    var at := candidate;
    found := false;
    ghost var left: nat := 0;
    if candidate in p {
      left :| Up(p, candidate, left) == TOP;
    }
    while at in p && !found
      invariant candidate in p ==> at == TOP || at in p
      invariant at in p ==> candidate in p && Up(p, at, left) == TOP
      invariant candidate !in p ==> !found && at == candidate
      invariant found ==> candidate in p && node in p && Within(p, candidate, node)
      invariant !found && candidate in p && node in p ==> (Within(p, candidate, node) <==> Within(p, at, node))
      decreases !found, left
    {
      WithinStep(p, at, node);
      if at == node {
        found := true;
      } else {
        at := p[at];
        left := left - 1;
      }
    }
    WithinOutside(p, TOP, node);
  }
}
