/** Splitting a sequence at a separator and joining it again, as Go's `strings` does
    for lines and for path segments. */
module Strings {

  function Split<T(==)>(t: seq<T>, sep: T): (parts: seq<seq<T>>)
    ensures |parts| >= 1
  {
    if t == [] then [[]]
    else
      var rest := Split(t[1..], sep);
      if t[0] == sep then [[]] + rest else [[t[0]] + rest[0]] + rest[1..]
  }

  function Join<T>(parts: seq<seq<T>>, sep: T): seq<T>
    requires |parts| >= 1
  {
    if |parts| == 1 then parts[0] else parts[0] + [sep] + Join(parts[1..], sep)
  }

  /** Splitting loses nothing but the separators, and leaves none in a part. */
  lemma {:induction false} JoinSplit<T>(t: seq<T>, sep: T)
    ensures Join(Split(t, sep), sep) == t
    ensures forall i :: 0 <= i < |Split(t, sep)| ==> sep !in Split(t, sep)[i]
  {
    if t != [] {
      JoinSplit(t[1..], sep);
      var rest := Split(t[1..], sep);
      if t[0] == sep {
        assert Split(t, sep)[1..] == rest;
      } else {
        var parts := Split(t, sep);
        assert parts[1..] == rest[1..];
        if |rest| > 1 {
          assert t == [t[0]] + (rest[0] + [sep] + Join(rest[1..], sep));
        }
      }
    }
  }

  /** Separator-free parts come back from their join unchanged. */
  lemma {:induction false} SplitJoin<T>(parts: seq<seq<T>>, sep: T)
    requires |parts| >= 1
    requires forall i :: 0 <= i < |parts| ==> sep !in parts[i]
    ensures Split(Join(parts, sep), sep) == parts
    decreases |parts|, |parts[0]|
  {
    var t := Join(parts, sep);
    var head := parts[0];
    if head == [] {
      if |parts| > 1 {
        assert t == [sep] + Join(parts[1..], sep);
        SplitJoin(parts[1..], sep);
      }
    } else {
      var shorter := [head[1..]] + parts[1..];
      assert shorter[1..] == parts[1..];
      assert t == [head[0]] + Join(shorter, sep);
      assert head[0] in head && head[0] != sep;
      SplitJoin(shorter, sep);
      assert t[1..] == Join(shorter, sep);
      assert [head[0]] + head[1..] == head;
    }
  }

  lemma {:induction false} JoinAppend<T>(parts: seq<seq<T>>, last: seq<T>, sep: T)
    requires |parts| >= 1
    ensures Join(parts + [last], sep) == Join(parts, sep) + [sep] + last
  {
    assert (parts + [last])[1..] == parts[1..] + [last];
    if |parts| == 1 {
      assert Join([last], sep) == last;
    } else {
      JoinAppend(parts[1..], last, sep);
    }
  }

  lemma SplitConcat<T>(a: seq<T>, b: seq<T>, k: nat)
    requires a != [] && k <= |a|
    ensures (a + b)[..k] == a[..k] && (a + b)[k..] == a[k..] + b && (a + b)[0] == a[0]
  {
  }

  lemma Concat3<T>(a: seq<T>, b: seq<T>, c: seq<T>)
    ensures a + b + c == a + (b + c)
  {
  }

  lemma TailConcat<T>(a: seq<T>, b: seq<T>)
    requires a != []
    ensures (a + b)[0] == a[0] && (a + b)[1..] == a[1..] + b
    ensures a == [a[0]] + a[1..]
  {
  }

  lemma SliceConcat<T>(t: seq<T>, from: nat, to: nat)
    requires from <= to <= |t|
    ensures t[..to] == t[..from] + t[from..to]
  {
  }

  lemma SliceOfRest<T>(t: seq<T>, from: nat, n: nat)
    requires from + n <= |t|
    ensures t[from..][..n] == t[from..from + n] && t[from..][n..] == t[from + n..]
  {
  }
}
