/** Text as a terminal receives it, the escapes the style package writes, and what is
    left of a text once the escapes are stripped. A Go string is modelled by its
    decoding: the runes it holds, and each byte that begins no valid UTF-8 encoding as a
    unit of its own, so text that is not valid UTF-8 is modelled too. */
module Ansi {
  import Strings

  datatype Unit = Rune(c: char) | Stray(b: bv8)
  type Text = seq<Unit>

  const ESC: Unit := Rune('\U{1B}')
  const RESET: Text := [ESC, Rune('['), Rune('0'), Rune('m')]
  const BOLD: Text := [ESC, Rune('['), Rune('1'), Rune('m')]
  const DIM: Text := [ESC, Rune('['), Rune('2'), Rune('m')]
  const GREEN: Text := [ESC, Rune('['), Rune('3'), Rune('2'), Rune('m')]
  const BLUE: Text := [ESC, Rune('['), Rune('3'), Rune('4'), Rune('m')]

  /** Puts text between a colour and the reset; empty text takes no colour. */
  function Wrap(code: Text, text: Text): Text {
    if text == [] then text else code + text + RESET
  }

  function Bold(text: Text): Text { Wrap(BOLD, text) }
  function Dim(text: Text): Text { Wrap(DIM, text) }
  function Key(text: Text): Text { Wrap(BLUE, text) }
  function Value(text: Text): Text { Wrap(GREEN, text) }

  // ---- Stripping: an escape is ESC, '[', digits and semicolons, 'm' ----

  predicate Parameter(u: Unit) {
    u.Rune? && ('0' <= u.c <= '9' || u.c == ';')
  }

  /** The length of a run of escape parameters and the 'm' that closes it, or 0. */
  function ClosedLength(t: Text): (n: nat)
    ensures n <= |t|
  {
    if t == [] then 0
    else if t[0] == Rune('m') then 1
    else if Parameter(t[0]) && ClosedLength(t[1..]) > 0 then 1 + ClosedLength(t[1..])
    else 0
  }

  /** The length of the escape t begins with, or 0. */
  function EscapeLength(t: Text): (n: nat)
    ensures n <= |t|
  {
    if |t| >= 2 && t[0] == ESC && t[1] == Rune('[') && ClosedLength(t[2..]) > 0
    then 2 + ClosedLength(t[2..]) else 0
  }

  /** t without its escapes, leftmost first. */
  function Strip(t: Text): Text {
    if t == [] then []
    else if EscapeLength(t) > 0 then Strip(t[EscapeLength(t)..])
    else [t[0]] + Strip(t[1..])
  }

  /** Stripping only removes, so a text as long as before is the text itself. */
  lemma {:induction false} StripShortens(t: Text)
    ensures |Strip(t)| <= |t|
    ensures |Strip(t)| == |t| ==> Strip(t) == t
  {
    if t != [] {
      StripShortens(if EscapeLength(t) > 0 then t[EscapeLength(t)..] else t[1..]);
    }
  }

  // ---- The same stripping a unit at a time, so it composes over concatenation ----

  /** What is visible so far, and the units held back because they may begin an escape. */
  datatype Scanner = Scanner(out: Text, held: Text) {
    predicate Valid() {
      held == [] ||
      (held[0] == ESC && (|held| >= 2 ==> held[1] == Rune('[')) && forall i :: 2 <= i < |held| ==> Parameter(held[i]))
    }

    function Flush(): Text { out + held }

    /** Whether u ends what is held without closing an escape. */
    predicate BrokenBy(u: Unit) {
      if held == [] then u != ESC
      else if |held| == 1 then u != ESC && u != Rune('[')
      else u != ESC && u != Rune('m') && !Parameter(u)
    }
  }

  function Step(s: Scanner, u: Unit): Scanner {
    if u == ESC then Scanner(s.out + s.held, [u])
    else if s.BrokenBy(u) then Scanner(s.out + s.held + [u], [])
    else if |s.held| >= 2 && u == Rune('m') then Scanner(s.out, [])
    else Scanner(s.out, s.held + [u])
  }

  function Scan(s: Scanner, t: Text): Scanner
    decreases |t|
  {
    if t == [] then s else Scan(Step(s, t[0]), t[1..])
  }

  lemma {:induction false} ScanConcat(s: Scanner, a: Text, b: Text)
    ensures Scan(s, a + b) == Scan(Scan(s, a), b)
    decreases |a|
  {
    if a == [] {
      assert a + b == b;
    } else {
      assert (a + b)[0] == a[0] && (a + b)[1..] == a[1..] + b;
      ScanConcat(Step(s, a[0]), a[1..], b);
    }
  }

  lemma {:induction false} HeldParameters(p: Text, rest: Text)
    requires forall i :: 0 <= i < |p| ==> Parameter(p[i])
    ensures ClosedLength(p + rest) == (if ClosedLength(rest) > 0 then |p| + ClosedLength(rest) else 0)
  {
    if p == [] {
      assert p + rest == rest;
    } else {
      assert (p + rest)[0] == p[0] && (p + rest)[1..] == p[1..] + rest;
      HeldParameters(p[1..], rest);
    }
  }

  /** Units that are no escape's beginning are all kept. */
  lemma {:induction false} StripKeeps(p: Text, rest: Text)
    requires ESC !in p
    ensures Strip(p + rest) == p + Strip(rest)
  {
    if p == [] {
      assert p + rest == rest;
    } else {
      assert (p + rest)[0] == p[0] && (p + rest)[1..] == p[1..] + rest;
      assert p[0] in p;
      StripOne(p + rest);
      hide Strip, EscapeLength;
      StripKeeps(p[1..], rest);
      Strings.Concat3([p[0]], p[1..], Strip(rest));
      assert p == [p[0]] + p[1..];
    }
  }

  lemma HeldTail(s: Scanner)
    requires s.Valid() && s.held != []
    ensures ESC !in s.held[1..]
  {
    forall i | 1 <= i < |s.held|
      ensures s.held[i] != ESC
    {
    }
  }

  lemma HeldIsUnclosed(s: Scanner, rest: Text)
    requires s.Valid() && s.held != []
    requires rest == [] || rest[0] == ESC || s.BrokenBy(rest[0])
    ensures EscapeLength(s.held + rest) == 0
  {
    var h := s.held;
    if |h| >= 2 {
      assert (h + rest)[2..] == h[2..] + rest;
      HeldParameters(h[2..], rest);
    }
  }

  /** Held units that nothing closes are kept. */
  lemma StripUnclosed(h: Text, rest: Text)
    requires h != [] && ESC !in h[1..] && EscapeLength(h + rest) == 0
    ensures Strip(h + rest) == h + Strip(rest)
  {
    StripKeeps(h[1..], rest);
    StripOne(h + rest);
    hide Strip, EscapeLength;
    Strings.TailConcat(h, rest);
    Strings.Concat3([h[0]], h[1..], Strip(rest));
  }

  lemma StripOne(t: Text)
    requires t != [] && EscapeLength(t) == 0
    ensures Strip(t) == [t[0]] + Strip(t[1..])
  {
  }

  lemma StripAfterBreak(s: Scanner, u: Unit, rest: Text)
    requires s.Valid() && (u == ESC || s.BrokenBy(u))
    ensures Strip(s.held + ([u] + rest)) == s.held + Strip([u] + rest)
    ensures u != ESC ==> Strip([u] + rest) == [u] + Strip(rest)
  {
    if s.held == [] {
      assert s.held + ([u] + rest) == [u] + rest;
    } else {
      HeldIsUnclosed(s, [u] + rest);
      HeldTail(s);
      StripUnclosed(s.held, [u] + rest);
    }
    if u != ESC {
      StripKeeps([u], rest);
    }
  }

  lemma StripAfterClose(s: Scanner, rest: Text)
    requires s.Valid() && |s.held| >= 2
    ensures Strip(s.held + ([Rune('m')] + rest)) == Strip(rest)
  {
    var t := [Rune('m')] + rest;
    var h := s.held + t;
    assert h[2..] == s.held[2..] + t;
    HeldParameters(s.held[2..], t);
    assert ClosedLength(t) == 1;
    assert h[EscapeLength(h)..] == rest;
  }

  /** One unit scanned is one unit stripped. */
  lemma StripStep(s: Scanner, u: Unit, rest: Text)
    requires s.Valid()
    ensures s.out + Strip(s.held + ([u] + rest)) == Step(s, u).out + Strip(Step(s, u).held + rest)
  {
    hide Strip;
    var kept, after := Strip([u] + rest), Strip(rest);
    if u == ESC || s.BrokenBy(u) {
      StripAfterBreak(s, u, rest);
      assert s.out + (s.held + kept) == (s.out + s.held) + kept;
      if u != ESC {
        assert kept == [u] + after;
        assert (s.out + s.held) + ([u] + after) == (s.out + s.held + [u]) + after;
        assert [] + rest == rest;
      }
    } else if |s.held| >= 2 && u == Rune('m') {
      StripAfterClose(s, rest);
      assert [] + rest == rest;
    } else {
      assert s.held + ([u] + rest) == (s.held + [u]) + rest;
    }
  }

  /** The scanner shows exactly what stripping leaves. */
  lemma {:induction false} ScanIsStrip(s: Scanner, t: Text)
    requires s.Valid()
    ensures Scan(s, t).Flush() == s.out + Strip(s.held + t)
    decreases |t|
  {
    if t == [] {
      assert s.held + t == s.held;
      if s.held != [] {
        HeldIsUnclosed(s, []);
        HeldTail(s);
        StripUnclosed(s.held, []);
      }
    } else {
      assert t == [t[0]] + t[1..];
      StripStep(s, t[0], t[1..]);
      ScanIsStrip(Step(s, t[0]), t[1..]);
    }
  }

  lemma {:induction false} ScanKeepsValid(s: Scanner, t: Text)
    requires s.Valid()
    ensures Scan(s, t).Valid()
    decreases |t|
  {
    if t != [] {
      ScanKeepsValid(Step(s, t[0]), t[1..]);
    }
  }

  // ---- What the style package's own escapes do to a scan ----

  predicate Code(c: Text) {
    c in {RESET, BOLD, DIM, GREEN, BLUE}
  }

  lemma {:induction false} ScanParameters(s: Scanner, p: Text)
    requires |s.held| >= 2 && forall i :: 0 <= i < |p| ==> Parameter(p[i])
    ensures Scan(s, p) == Scanner(s.out, s.held + p)
    decreases |p|
  {
    if p == [] {
      assert s.held + p == s.held;
    } else {
      ScanParameters(Step(s, p[0]), p[1..]);
      assert s.held + [p[0]] + p[1..] == s.held + p;
    }
  }

  lemma ScanOne(s: Scanner, u: Unit)
    ensures Scan(s, [u]) == Step(s, u)
  {
    assert Scan(Step(s, u), [u][1..]) == Step(s, u);
  }

  lemma ScanOpen(s: Scanner)
    ensures Scan(s, [ESC] + [Rune('[')]) == Scanner(s.Flush(), [ESC, Rune('[')])
  {
    ScanConcat(s, [ESC], [Rune('[')]);
    ScanOne(s, ESC);
    ScanOne(Scanner(s.Flush(), [ESC]), Rune('['));
  }

  lemma ScanEscape(s: Scanner, p: Text)
    requires forall i :: 0 <= i < |p| ==> Parameter(p[i])
    ensures Scan(s, ([ESC] + [Rune('[')]) + (p + [Rune('m')])) == Scanner(s.Flush(), [])
  {
    var begun := Scanner(s.Flush(), [ESC, Rune('[')]);
    ScanConcat(s, [ESC] + [Rune('[')], p + [Rune('m')]);
    ScanOpen(s);
    ScanConcat(begun, p, [Rune('m')]);
    ScanParameters(begun, p);
    ScanOne(Scanner(begun.out, begun.held + p), Rune('m'));
  }

  /** A whole escape adds nothing: it only ends whatever was held. */
  lemma ScanCode(s: Scanner, c: Text)
    requires Code(c)
    ensures Scan(s, c) == Scanner(s.Flush(), [])
  {
    var p := if |c| == 4 then [c[2]] else [c[2], c[3]];
    assert c == ([ESC] + [Rune('[')]) + (p + [Rune('m')]);
    ScanEscape(s, p);
  }

  /** A unit no escape can hold, so it ends any escape begun. */
  predicate Breaker(u: Unit) {
    u != ESC && u != Rune('[') && u != Rune('m') && !Parameter(u)
  }

  lemma BreakerEnds(s: Scanner, u: Unit)
    requires Breaker(u)
    ensures Step(s, u) == Scanner(s.Flush() + [u], [])
  {
  }

  lemma ScanEndsClear(s: Scanner, t: Text)
    requires t != [] && Breaker(t[|t| - 1])
    ensures Scan(s, t).held == []
  {
    var n := |t| - 1;
    ScanConcat(s, t[..n], [t[n]]);
    assert t == t[..n] + [t[n]];
    BreakerEnds(Scan(s, t[..n]), t[n]);
    assert Scan(Scan(s, t[..n]), [t[n]]) == Scan(Step(Scan(s, t[..n]), t[n]), []);
  }

  /** Text that begins with a breaker scans alike whether or not the held units were
      flushed before it, so an escape written there is invisible. */
  lemma ScanAfterFlush(s: Scanner, t: Text)
    requires t == [] || Breaker(t[0])
    ensures Scan(Scanner(s.Flush(), []), t).Flush() == Scan(s, t).Flush()
    ensures t != [] ==> Scan(Scanner(s.Flush(), []), t) == Scan(s, t)
  {
    if t != [] {
      BreakerEnds(s, t[0]);
      BreakerEnds(Scanner(s.Flush(), []), t[0]);
      assert s.Flush() + [] == s.Flush();
    }
  }

  /** Wrapping text that begins with a breaker leaves the scan where the bare text leaves it,
      flushed. */
  lemma ScanWrapped(s: Scanner, c: Text, t: Text)
    requires s.Valid() && Code(c)
    requires t != [] && Breaker(t[0])
    ensures Scan(s, Wrap(c, t)) == Scanner(Scan(s, t).Flush(), [])
  {
    ScanConcat(s, c + t, RESET);
    ScanConcat(s, c, t);
    ScanCode(s, c);
    ScanAfterFlush(s, t);
    ScanKeepsValid(s, t);
    ScanCode(Scan(s, t), RESET);
  }

  lemma StripPlain(t: Text)
    requires ESC !in t
    ensures Strip(t) == t
  {
    StripKeeps(t, []);
    assert t + [] == t;
  }

  lemma StripByScan(t: Text)
    ensures Strip(t) == Scan(Scanner([], []), t).Flush()
  {
    ScanIsStrip(Scanner([], []), t);
    assert [] + t == t;
  }
}
