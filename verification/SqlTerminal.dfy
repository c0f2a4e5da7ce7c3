/** What a terminal shows of a coloured statement: a comment dim, a marker green, each keyword
    bold, and everything else plain. */
module SqlTerminal {
  import opened Ansi
  import opened Sql
  import opened SqlErasure
  import opened Terminal
  import Strings

  const BOLD_PEN: Pen := [[Rune('1')]]
  const DIM_PEN: Pen := [[Rune('2')]]
  const GREEN_PEN: Pen := [[Rune('3'), Rune('2')]]

  // ---- What should be shown ----

  /** A line whose first character after its spaces and tabs opens a comment. */
  ghost predicate CommentLine(line: Text) {
    exists n: nat :: OpensAfter(line, n)
  }

  ghost predicate OpensAfter(line: Text, n: nat) {
    n <= |line| && (forall i :: 0 <= i < n ==> line[i] == Rune(' ') || line[i] == Rune('\t')) && At(line, n, COMMENT)
  }

  function TokenCells(t: Token): seq<Cell> {
    match t
    case Word(text) => Show(if Keyword(text) then BOLD_PEN else PLAIN, text)
    case Other(u) => Show(PLAIN, [if u.Stray? then Rune('\U{FFFD}') else u])
  }

  function CodeCells(ts: seq<Token>): seq<Cell> {
    if ts == [] then [] else TokenCells(ts[0]) + CodeCells(ts[1..])
  }

  function SpanCells(s: Span): seq<Cell> {
    match s
    case Code(text) => CodeCells(Tokens(text))
    case Marker(text) => Show(GREEN_PEN, text)
    case Comment(text) => Show(DIM_PEN, text)
  }

  function SpansCells(ss: seq<Span>): seq<Cell> {
    if ss == [] then [] else SpanCells(ss[0]) + SpansCells(ss[1..])
  }

  ghost function LineCells(line: Text): seq<Cell> {
    if CommentLine(line) then Show(DIM_PEN, line) else SpansCells(Spans(line))
  }

  ghost function LinesCells(lines: seq<Text>): seq<Cell> {
    if lines == [] then []
    else if |lines| == 1 then LineCells(lines[0])
    else LineCells(lines[0]) + Show(PLAIN, [NEWLINE]) + LinesCells(lines[1..])
  }

  // ---- The colouring's pieces ----

  function TokenPiece(t: Token): Piece {
    match t
    case Word(text) => Piece(if Keyword(text) then [Rune('1')] else [], text)
    case Other(u) => Piece([], [if u.Stray? then Rune('\U{FFFD}') else u])
  }

  function CodePieces(ts: seq<Token>): seq<Piece> {
    if ts == [] then [] else [TokenPiece(ts[0])] + CodePieces(ts[1..])
  }

  function SpanPieces(s: Span): seq<Piece> {
    match s
    case Code(text) => CodePieces(Tokens(text))
    case Marker(text) => [Piece([Rune('3'), Rune('2')], text)]
    case Comment(text) => [Piece([Rune('2')], text)]
  }

  function SpansPieces(ss: seq<Span>): seq<Piece> {
    if ss == [] then [] else SpanPieces(ss[0]) + SpansPieces(ss[1..])
  }

  ghost predicate Well(ps: seq<Piece>) {
    forall i :: 0 <= i < |ps| ==> Proper(ps[i])
  }

  lemma WellConcat(a: seq<Piece>, b: seq<Piece>)
    requires Well(a) && Well(b)
    ensures Well(a + b)
  {
    hide Proper;
  }

  lemma {:induction false} CodeWhole(ts: seq<Token>)
    requires forall i :: 0 <= i < |ts| ==> WordOrOther(ts[i])
    ensures Well(CodePieces(ts)) && Assemble(CodePieces(ts)) == PaintAll(ts)
    ensures PlainText(CodePieces(ts)) == Repair(TokensText(ts)) && Cells(CodePieces(ts)) == CodeCells(ts)
    decreases |ts|
  {
    if ts == [] {
      assert Repair([]) == [];
    } else {
      TokenWhole(ts[0]);
      CodeWhole(ts[1..]);
      var p := TokenPiece(ts[0]);
      OnePiece(p);
      PiecesConcat([p], CodePieces(ts[1..]));
      WellConcat([p], CodePieces(ts[1..]));
      RepairConcat(TokenText(ts[0]), TokensText(ts[1..]));
      hide TokenPiece, TokenCells, Paint, Well, Assemble, PlainText, Cells, Write, Repair;
    }
  }

  lemma TokenWhole(t: Token)
    requires WordOrOther(t)
    ensures Well([TokenPiece(t)]) && Write(TokenPiece(t)) == Paint(t)
    ensures TokenPiece(t).text == Repair(TokenText(t)) && Show(PenOf(TokenPiece(t)), TokenPiece(t).text) == TokenCells(t)
  {
    hide Keyword;
    EscapesSpelled();
    if t.Word? {
      RunesNeedNone(t.text);
    }
  }

  lemma SpanWhole(s: Span)
    ensures Well(SpanPieces(s)) && Assemble(SpanPieces(s)) == PaintSpan(s)
    ensures PlainText(SpanPieces(s)) == RepairSpan(s) && Cells(SpanPieces(s)) == SpanCells(s)
  {
    EscapesSpelled();
    match s
    case Code(text) =>
      TokensAreWords(text);
      CodeWhole(Tokens(text));
    case Marker(text) => OnePiece(Piece([Rune('3'), Rune('2')], text));
    case Comment(text) => OnePiece(Piece([Rune('2')], text));
  }

  lemma {:induction false} SpansWhole(ss: seq<Span>)
    ensures Well(SpansPieces(ss)) && Assemble(SpansPieces(ss)) == PaintSpans(ss)
    ensures PlainText(SpansPieces(ss)) == RepairSpans(ss) && Cells(SpansPieces(ss)) == SpansCells(ss)
    decreases |ss|
  {
    if ss != [] {
      hide PaintSpan, SpanCells, SpanPieces, RepairSpan, Well;
      SpanWhole(ss[0]);
      SpansWhole(ss[1..]);
      PiecesConcat(SpanPieces(ss[0]), SpansPieces(ss[1..]));
      WellConcat(SpanPieces(ss[0]), SpansPieces(ss[1..]));
      hide Assemble, PlainText, Cells;
    } else {
      assert Well([]);
    }
  }

  lemma OpensLater(line: Text, n: nat)
    requires line != [] && (line[0] == Rune(' ') || line[0] == Rune('\t'))
    ensures OpensAfter(line, n + 1) <==> OpensAfter(line[1..], n)
  {
    AtLater(line, 1, COMMENT);
    assert forall i :: 0 <= i < |line| - 1 ==> line[1..][i] == line[i + 1];
    assert forall i :: 0 < i < |line| ==> line[i] == line[1..][i - 1];
    hide At;
  }

  lemma OpensHere(line: Text, n: nat)
    requires OpensAfter(line, n)
    ensures line != [] && ((line[0] == Rune(' ') || line[0] == Rune('\t')) <==> n > 0)
  {
    assert line[n..n + 2][0] == line[n];
  }

  /** Trimming its indentation, the colourer finds exactly the comment lines. */
  lemma {:induction false} TrimFindsComments(line: Text)
    ensures At(TrimLeft(line), 0, COMMENT) <==> CommentLine(line)
    decreases |line|
  {
    if line != [] && (line[0] == Rune(' ') || line[0] == Rune('\t')) {
      TrimFindsComments(line[1..]);
      hide At, OpensAfter;
      if n: nat :| OpensAfter(line[1..], n) {
        OpensLater(line, n);
      }
      if n: nat :| OpensAfter(line, n) {
        OpensHere(line, n);
        OpensLater(line, n - 1);
      }
    } else {
      assert TrimLeft(line) == line;
      assert At(line, 0, COMMENT) ==> OpensAfter(line, 0);
      if n: nat :| OpensAfter(line, n) {
        OpensHere(line, n);
      }
    }
  }

  lemma LineWhole(line: Text)
    ensures var ps := SpansPieces(LineSpans(line));
            Well(ps) && Assemble(ps) == PaintLine(line) && PlainText(ps) == RepairLine(line) && Cells(ps) == LineCells(line)
  {
    SpansWhole(LineSpans(line));
    TrimFindsComments(line);
    if CommentLine(line) {
      assert SpansCells([Comment(line)]) == SpanCells(Comment(line)) + SpansCells([]);
    }
  }

  function LinesPieces(lines: seq<Text>): seq<Piece>
    requires |lines| >= 1
  {
    if |lines| == 1 then SpansPieces(LineSpans(lines[0]))
    else SpansPieces(LineSpans(lines[0])) + ([Piece([], [NEWLINE])] + LinesPieces(lines[1..]))
  }

  lemma {:induction false} LinesWhole(lines: seq<Text>)
    requires |lines| >= 1
    ensures Well(LinesPieces(lines)) && Assemble(LinesPieces(lines)) == PaintJoined(lines)
    ensures PlainText(LinesPieces(lines)) == Strings.Join(RepairLines(lines), NEWLINE) && Cells(LinesPieces(lines)) == LinesCells(lines)
    decreases |lines|
  {
    hide LineCells, PaintLine, RepairLine, Well;
    LineWhole(lines[0]);
    if |lines| == 1 {
      assert PaintLines(lines) == [PaintLine(lines[0])] && RepairLines(lines) == [RepairLine(lines[0])];
    } else {
      LinesWhole(lines[1..]);
      OneMoreLine(SpansPieces(LineSpans(lines[0])), LinesPieces(lines[1..]));
      JoinedLines(lines);
      hide Assemble, PlainText, Cells, SpansPieces, Strings.Join, PaintJoined, RepairLines;
    }
  }

  lemma JoinedLines(lines: seq<Text>)
    requires |lines| > 1
    ensures PaintJoined(lines) == PaintLine(lines[0]) + [NEWLINE] + PaintJoined(lines[1..])
    ensures Strings.Join(RepairLines(lines), NEWLINE) == RepairLine(lines[0]) + [NEWLINE] + Strings.Join(RepairLines(lines[1..]), NEWLINE)
  {
    hide PaintLine, RepairLine;
    assert PaintLines(lines)[1..] == PaintLines(lines[1..]) && RepairLines(lines)[1..] == RepairLines(lines[1..]);
  }

  lemma OneMoreLine(first: seq<Piece>, rest: seq<Piece>)
    requires Well(first) && Well(rest)
    ensures var ps := first + ([Piece([], [NEWLINE])] + rest);
            && Well(ps) && Assemble(ps) == Assemble(first) + [NEWLINE] + Assemble(rest)
            && PlainText(ps) == PlainText(first) + [NEWLINE] + PlainText(rest)
            && Cells(ps) == Cells(first) + Show(PLAIN, [NEWLINE]) + Cells(rest)
  {
    hide Assemble, PlainText, Cells, Well;
    var between := [Piece([], [NEWLINE])];
    OnePiece(between[0]);
    NewlineIsWell();
    PiecesConcat(between, rest);
    PiecesConcat(first, between + rest);
    WellConcat(between, rest);
    WellConcat(first, between + rest);
    Strings.Concat3(Assemble(first), [NEWLINE], Assemble(rest));
    Strings.Concat3(PlainText(first), [NEWLINE], PlainText(rest));
    Strings.Concat3(Cells(first), Show(PLAIN, [NEWLINE]), Cells(rest));
  }

  lemma NewlineIsWell()
    ensures Well([Piece([], [NEWLINE])]) && Write(Piece([], [NEWLINE])) == [NEWLINE]
  {
  }

  /** A terminal shows a coloured statement line by line, its comments dim, its markers green, its
      keywords bold, the rest plain, and each byte of its code that is no rune as U+FFFD, exactly
      when the text with those bytes replaced holds no escape. */
  lemma SqlShows(text: Text)
    ensures Render(PaintText(text)) == LinesCells(Strings.Split(text, NEWLINE)) <==> Strip(Repaired(text)) == Repaired(text)
  {
    var lines := Strings.Split(text, NEWLINE);
    LinesWhole(lines);
    RenderIsExact(LinesPieces(lines));
    ErasureShowsRepaired(text);
  }

  /** So it does for every valid text without the escape character. */
  lemma SqlShowsText(text: Text)
    requires ESC !in text && forall u :: u in text ==> u.Rune?
    ensures Render(PaintText(text)) == LinesCells(Strings.Split(text, NEWLINE))
  {
    SqlShows(text);
    StripPlain(text);
    RepairedText(text);
    var lines := Strings.Split(text, NEWLINE);
    Strings.JoinSplit(text, NEWLINE);
    forall i, s, u | 0 <= i < |lines| && s in LineSpans(lines[i]) && s.Code? && u in s.text
      ensures u.Rune?
    {
      LineText(lines[i]);
      UnitsOfSpans(LineSpans(lines[i]), s, u);
      UnitsOfLines(lines, i, u);
    }
  }

  lemma {:induction false} UnitsOfSpans(ss: seq<Span>, s: Span, u: Unit)
    requires s in ss && u in s.text
    ensures u in SpansText(ss)
  {
    if s != ss[0] {
      UnitsOfSpans(ss[1..], s, u);
    }
  }

  lemma {:induction false} UnitsOfLines(lines: seq<Text>, i: nat, u: Unit)
    requires i < |lines| && u in lines[i]
    ensures u in Strings.Join(lines, NEWLINE)
    decreases |lines|
  {
    if i > 0 {
      UnitsOfLines(lines[1..], i - 1, u);
    }
  }
}
