/** What a terminal shows of a text: each visible unit with the escapes in force where it stands.
    The terminal knows escapes by their spelling alone, an ESC, a bracket, parameters, and an
    'm', so what it shows says which colour each unit of a colouring really has. */
module Terminal {
  import opened Ansi
  import Strings

  /** The parameters of each escape in force, in order; no escape in force is plain. */
  type Pen = seq<Text>
  datatype Cell = Cell(unit: Unit, pen: Pen)

  const PLAIN: Pen := []

  /** What is shown, the units held back because they may begin an escape, and the pen. */
  datatype Screen = Screen(cells: seq<Cell>, held: Text, pen: Pen) {
    function Flush(): seq<Cell> { cells + Show(pen, held) }

    function Scanned(): Scanner { Scanner(Units(cells), held) }
  }

  function Show(pen: Pen, t: Text): (cells: seq<Cell>)
    ensures |cells| == |t| && forall i :: 0 <= i < |t| ==> cells[i] == Cell(t[i], pen)
  {
    seq(|t|, i requires 0 <= i < |t| => Cell(t[i], pen))
  }

  function Units(cells: seq<Cell>): (t: Text)
    ensures |t| == |cells| && forall i :: 0 <= i < |t| ==> t[i] == cells[i].unit
  {
    seq(|cells|, i requires 0 <= i < |cells| => cells[i].unit)
  }

  /** An escape's effect: no parameter, or a zero, resets, and any other is in force too. */
  function Pick(pen: Pen, parameters: Text): Pen {
    if parameters == [] || parameters == [Rune('0')] then PLAIN else pen + [parameters]
  }

  function Draw(s: Screen, u: Unit): Screen {
    if u == Rune('\U{1B}') then Screen(s.Flush(), [u], s.pen)
    else if |s.held| == 1 && u == Rune('[') then Screen(s.cells, s.held + [u], s.pen)
    else if |s.held| >= 2 && u == Rune('m') then Screen(s.cells, [], Pick(s.pen, s.held[2..]))
    else if |s.held| >= 2 && Parameter(u) then Screen(s.cells, s.held + [u], s.pen)
    else Screen(s.Flush() + [Cell(u, s.pen)], [], s.pen)
  }

  function Feed(s: Screen, t: Text): Screen
    decreases |t|
  {
    if t == [] then s else Feed(Draw(s, t[0]), t[1..])
  }

  const BLANK := Screen([], [], PLAIN)

  function Render(t: Text): seq<Cell> {
    Feed(BLANK, t).Flush()
  }

  // ---- The terminal shows what stripping leaves ----

  lemma DrawIsStep(s: Screen, u: Unit)
    requires s.Scanned().Valid()
    ensures Draw(s, u).Scanned() == Step(s.Scanned(), u)
  {
    assert Units(s.Flush()) == Units(s.cells) + s.held;
    assert Units(s.Flush() + [Cell(u, s.pen)]) == Units(s.cells) + s.held + [u];
  }

  lemma {:induction false} FeedIsScan(s: Screen, t: Text)
    requires s.Scanned().Valid()
    ensures Feed(s, t).Scanned() == Scan(s.Scanned(), t)
    decreases |t|
  {
    if t != [] {
      hide Draw, Step;
      DrawIsStep(s, t[0]);
      StepKeepsValid(s.Scanned(), t[0]);
      FeedIsScan(Draw(s, t[0]), t[1..]);
    }
  }

  lemma StepKeepsValid(s: Scanner, u: Unit)
    requires s.Valid()
    ensures Step(s, u).Valid()
  {
  }

  lemma RenderIsStrip(t: Text)
    ensures Units(Render(t)) == Strip(t)
  {
    FeedIsScan(BLANK, t);
    StripByScan(t);
    hide Feed, Scan, Strip;
    var s := Feed(BLANK, t);
    assert Units(s.Flush()) == Units(s.cells) + s.held;
  }

  // ---- Text in which no escape closes is shown under the pen it meets ----

  lemma {:induction false} FeedConcat(s: Screen, a: Text, b: Text)
    ensures Feed(s, a + b) == Feed(Feed(s, a), b)
    decreases |a|
  {
    if a == [] {
      assert a + b == b;
    } else {
      hide Draw;
      assert (a + b)[0] == a[0] && (a + b)[1..] == a[1..] + b;
      FeedConcat(Draw(s, a[0]), a[1..], b);
    }
  }

  /** One unit is one cell more, under the pen as it was, unless it closes an escape. */
  lemma DrawOne(s: Screen, u: Unit)
    ensures |Draw(s, u).Flush()| <= |s.Flush()| + 1
    ensures |Draw(s, u).Flush()| == |s.Flush()| + 1 ==> Draw(s, u).Flush() == s.Flush() + [Cell(u, s.pen)] && Draw(s, u).pen == s.pen
  {
    assert Show(s.pen, s.held + [u]) == Show(s.pen, s.held) + [Cell(u, s.pen)];
    assert s.cells + (Show(s.pen, s.held) + [Cell(u, s.pen)]) == s.Flush() + [Cell(u, s.pen)];
    assert Show(s.pen, [u]) == [Cell(u, s.pen)] && Show(s.pen, []) == [];
    assert forall cells: seq<Cell> :: cells + [] == cells;
  }

  lemma {:induction false} FeedText(s: Screen, t: Text)
    ensures |Feed(s, t).Flush()| <= |s.Flush()| + |t|
    ensures |Feed(s, t).Flush()| == |s.Flush()| + |t| ==> Feed(s, t).Flush() == s.Flush() + Show(s.pen, t) && Feed(s, t).pen == s.pen
    decreases |t|
  {
    if t == [] {
      assert s.Flush() + Show(s.pen, t) == s.Flush();
    } else {
      hide Draw;
      DrawOne(s, t[0]);
      FeedText(Draw(s, t[0]), t[1..]);
      assert Show(s.pen, t) == [Cell(t[0], s.pen)] + Show(s.pen, t[1..]);
      Strings.Concat3(s.Flush(), [Cell(t[0], s.pen)], Show(s.pen, t[1..]));
    }
  }

  // ---- The style package's escapes ----

  lemma {:induction false} FeedParameters(s: Screen, p: Text)
    requires |s.held| >= 2 && forall i :: 0 <= i < |p| ==> Parameter(p[i])
    ensures Feed(s, p) == Screen(s.cells, s.held + p, s.pen)
    decreases |p|
  {
    if p == [] {
      assert s.held + p == s.held;
    } else {
      FeedParameters(Draw(s, p[0]), p[1..]);
      assert s.held + [p[0]] + p[1..] == s.held + p;
    }
  }

  lemma FeedOne(s: Screen, u: Unit)
    ensures Feed(s, [u]) == Draw(s, u)
  {
    assert Feed(Draw(s, u), [u][1..]) == Draw(s, u);
  }

  /** The escape with the parameters. */
  function Escape(parameters: Text): Text {
    [Rune('\U{1B}'), Rune('[')] + parameters + [Rune('m')]
  }

  /** The style package's colours, as the terminal reads them. */
  lemma EscapesSpelled()
    ensures BOLD == Escape([Rune('1')]) && DIM == Escape([Rune('2')]) && GREEN == Escape([Rune('3'), Rune('2')])
    ensures BLUE == Escape([Rune('3'), Rune('4')]) && RESET == Escape([Rune('0')])
  {
  }

  /** A whole escape shows what was held and then nothing, and its pen is in force. */
  lemma FeedEscape(s: Screen, p: Text)
    requires forall i :: 0 <= i < |p| ==> Parameter(p[i])
    ensures Feed(s, Escape(p)) == Screen(s.Flush(), [], Pick(s.pen, p))
  {
    var a, b, c := [Rune('\U{1B}')], [Rune('[')], [Rune('m')];
    assert Escape(p) == a + (b + (p + c));
    FeedConcat(s, a, b + (p + c));
    FeedOne(s, a[0]);
    var s1 := Screen(s.Flush(), a, s.pen);
    FeedConcat(s1, b, p + c);
    FeedOne(s1, b[0]);
    var s2 := Screen(s.Flush(), a + b, s.pen);
    FeedConcat(s2, p, c);
    FeedParameters(s2, p);
    FeedOne(Screen(s.Flush(), a + b + p, s.pen), c[0]);
    assert (a + b + p)[2..] == p;
  }

  // ---- A text put together from plain and coloured pieces ----

  /** One piece, plain where there are no parameters, and otherwise between the escape with them
      and a reset. */
  datatype Piece = Piece(parameters: Text, text: Text)

  predicate Proper(p: Piece) {
    p.parameters != [Rune('0')] && forall i :: 0 <= i < |p.parameters| ==> Parameter(p.parameters[i])
  }

  function PenOf(p: Piece): Pen {
    if p.parameters == [] then PLAIN else [p.parameters]
  }

  function Write(p: Piece): Text {
    if p.parameters == [] || p.text == [] then p.text else Escape(p.parameters) + p.text + Escape([Rune('0')])
  }

  function Assemble(ps: seq<Piece>): Text {
    if ps == [] then [] else Write(ps[0]) + Assemble(ps[1..])
  }

  function PlainText(ps: seq<Piece>): Text {
    if ps == [] then [] else ps[0].text + PlainText(ps[1..])
  }

  /** Each piece's units under its own pen. */
  function Cells(ps: seq<Piece>): seq<Cell> {
    if ps == [] then [] else Show(PenOf(ps[0]), ps[0].text) + Cells(ps[1..])
  }

  lemma FeedPiece(s: Screen, p: Piece)
    requires Proper(p)
    ensures var t := Feed(s, Write(p));
            && |t.Flush()| <= |s.Flush()| + |p.text|
            && (s.pen == PLAIN && |t.Flush()| == |s.Flush()| + |p.text| ==>
                  t.Flush() == s.Flush() + Show(PenOf(p), p.text) && t.pen == PLAIN)
  {
    if p.parameters == [] || p.text == [] {
      FeedText(s, p.text);
      assert p.text == [] ==> Show(PenOf(p), p.text) == Show(s.pen, p.text);
    } else {
      var code, zero := Escape(p.parameters), Escape([Rune('0')]);
      FeedConcat(s, code + p.text, zero);
      FeedConcat(s, code, p.text);
      FeedEscape(s, p.parameters);
      var s1 := Screen(s.Flush(), [], Pick(s.pen, p.parameters));
      assert s1.Flush() == s.Flush() && (s.pen == PLAIN ==> s1.pen == PenOf(p));
      FeedText(s1, p.text);
      var s2 := Feed(s1, p.text);
      FeedEscape(s2, [Rune('0')]);
      hide Feed, Escape;
      assert Screen(s2.Flush(), [], PLAIN).Flush() == s2.Flush();
    }
  }

  lemma {:induction false} FeedPieces(s: Screen, ps: seq<Piece>)
    requires forall i :: 0 <= i < |ps| ==> Proper(ps[i])
    ensures var t := Feed(s, Assemble(ps));
            && |t.Flush()| <= |s.Flush()| + |PlainText(ps)|
            && (s.pen == PLAIN && |t.Flush()| == |s.Flush()| + |PlainText(ps)| ==> t.Flush() == s.Flush() + Cells(ps))
    decreases |ps|
  {
    if ps == [] {
      assert s.Flush() + Cells(ps) == s.Flush();
    } else {
      hide Write, Feed;
      FeedPiece(s, ps[0]);
      FeedConcat(s, Write(ps[0]), Assemble(ps[1..]));
      var t := Feed(s, Write(ps[0]));
      FeedPieces(t, ps[1..]);
      Strings.Concat3(s.Flush(), Show(PenOf(ps[0]), ps[0].text), Cells(ps[1..]));
    }
  }

  lemma {:induction false} UnitsOfCells(ps: seq<Piece>)
    ensures Units(Cells(ps)) == PlainText(ps)
  {
    if ps != [] {
      UnitsOfCells(ps[1..]);
      var a, b := Show(PenOf(ps[0]), ps[0].text), Cells(ps[1..]);
      assert Units(a + b) == Units(a) + Units(b) && Units(a) == ps[0].text;
    }
  }

  /** The terminal shows each piece under its own pen, exactly when stripping the escapes gives
      the pieces' text back. */
  lemma RenderIsExact(ps: seq<Piece>)
    requires forall i :: 0 <= i < |ps| ==> Proper(ps[i])
    ensures Render(Assemble(ps)) == Cells(ps) <==> Strip(Assemble(ps)) == PlainText(ps)
  {
    RenderIsStrip(Assemble(ps));
    UnitsOfCells(ps);
    FeedPieces(BLANK, ps);
    hide Feed, Assemble, Strip, Cells, PlainText;
    assert BLANK.Flush() == [];
    assert |Render(Assemble(ps))| == |Strip(Assemble(ps))|;
    assert [] + Cells(ps) == Cells(ps);
  }

  // ---- Putting pieces together ----

  lemma {:induction false} PiecesConcat(a: seq<Piece>, b: seq<Piece>)
    ensures Assemble(a + b) == Assemble(a) + Assemble(b)
    ensures PlainText(a + b) == PlainText(a) + PlainText(b)
    ensures Cells(a + b) == Cells(a) + Cells(b)
  {
    if a == [] {
      assert a + b == b;
    } else {
      hide Write, Show;
      assert (a + b)[0] == a[0] && (a + b)[1..] == a[1..] + b;
      PiecesConcat(a[1..], b);
      Strings.Concat3(Write(a[0]), Assemble(a[1..]), Assemble(b));
      Strings.Concat3(a[0].text, PlainText(a[1..]), PlainText(b));
      Strings.Concat3(Show(PenOf(a[0]), a[0].text), Cells(a[1..]), Cells(b));
    }
  }

  lemma OnePiece(p: Piece)
    ensures Assemble([p]) == Write(p) && PlainText([p]) == p.text && Cells([p]) == Show(PenOf(p), p.text)
  {
    assert [p][1..] == [];
  }
}
