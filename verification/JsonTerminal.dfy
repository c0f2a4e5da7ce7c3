/** What a terminal shows of a coloured JSON document: each member's name blue, each other string
    and each number green, and everything else plain. */
module JsonTerminal {
  import opened Ansi
  import opened Json
  import opened Terminal
  import Strings

  // ---- A document as it is written ----

  /** One token as the text holds it, after the gap before it. */
  datatype Written = Written(gap: Text, token: Token, literal: Text)

  /** Whitespace, commas, and colons (sections 2, 4, and 5 of RFC 8259). */
  predicate Between(u: Unit) {
    u == Rune(' ') || u == Rune('\t') || u == Rune('\r') || u == Rune('\n') || u == Rune(':') || u == Rune(',')
  }

  /** How each kind of token begins (sections 2, 3, 6, and 7 of RFC 8259). */
  predicate Begins(token: Token, u: Unit) {
    match token
    case Delim(c) => c in {'{', '}', '[', ']'} && u == Rune(c)
    case Str => u == Rune('"')
    case Num => u == Rune('-') || (u.Rune? && '0' <= u.c <= '9')
    case Lit => u == Rune('t') || u == Rune('f') || u == Rune('n')
  }

  predicate Spelled(w: Written) {
    (forall i :: 0 <= i < |w.gap| ==> Between(w.gap[i])) && w.literal != [] && Begins(w.token, w.literal[0])
  }

  /** The document's text, and what follows its last token. */
  function TextOf(ws: seq<Written>, last: Text): Text {
    if ws == [] then last else ws[0].gap + ws[0].literal + TextOf(ws[1..], last)
  }

  /** What a tokenizer answers for it: each token with the offset its literal ends at. */
  function LexemesOf(pos: nat, ws: seq<Written>): (lexemes: seq<Lexeme>)
    ensures |lexemes| == |ws| && forall i :: 0 <= i < |ws| ==> lexemes[i].token == ws[i].token
    decreases |ws|
  {
    if ws == [] then []
    else
      var end := pos + |ws[0].gap| + |ws[0].literal|;
      [Lexeme(ws[0].token, end)] + LexemesOf(end, ws[1..])
  }

  function TokensIn(ws: seq<Written>): (tokens: seq<Token>)
    ensures |tokens| == |ws|
  {
    seq(|ws|, i requires 0 <= i < |ws| => ws[i].token)
  }

  // ---- What should be shown ----

  function PenUnder(parameters: Text): Pen {
    if parameters == [] then PLAIN else [parameters]
  }

  /** Each gap plain, and each literal under its own escape. */
  function Shown(ws: seq<Written>, shades: seq<Text>, last: Text): seq<Cell>
    requires |shades| == |ws|
  {
    if ws == [] then Show(PLAIN, last)
    else Show(PLAIN, ws[0].gap) + (Show(PenUnder(shades[0]), ws[0].literal) + Shown(ws[1..], shades[1..], last))
  }

  function Pieces(ws: seq<Written>, shades: seq<Text>, last: Text): seq<Piece>
    requires |shades| == |ws|
  {
    if ws == [] then [Piece([], last)]
    else [Piece([], ws[0].gap)] + ([Piece(shades[0], ws[0].literal)] + Pieces(ws[1..], shades[1..], last))
  }

  lemma {:induction false} PiecesShow(ws: seq<Written>, shades: seq<Text>, last: Text)
    requires |shades| == |ws|
    ensures Cells(Pieces(ws, shades, last)) == Shown(ws, shades, last)
    ensures PlainText(Pieces(ws, shades, last)) == TextOf(ws, last)
    decreases |ws|
  {
    OnePiece(Piece([], last));
    if ws != [] {
      PiecesShow(ws[1..], shades[1..], last);
      var gap, literal, rest := Piece([], ws[0].gap), Piece(shades[0], ws[0].literal), Pieces(ws[1..], shades[1..], last);
      OnePiece(gap);
      OnePiece(literal);
      PiecesConcat([literal], rest);
      PiecesConcat([gap], [literal] + rest);
      hide Cells, PlainText, Assemble, Write;
      Strings.Concat3(ws[0].gap, ws[0].literal, TextOf(ws[1..], last));
    }
  }

  // ---- The tokenizer's offsets find the literals ----

  lemma GapIsBetween(u: Unit)
    ensures Gap(u) <==> Between(u)
  {
  }

  lemma NoGapBegins(token: Token, u: Unit)
    requires Begins(token, u)
    ensures !Between(u)
  {
  }

  lemma FindsLiteral(text: Text, pos: nat, start: nat, end: nat)
    requires pos <= start < end <= |text|
    requires (forall i :: pos <= i < start ==> Gap(text[i])) && !Gap(text[start])
    ensures LiteralStart(text, pos, end) == start
  {
    hide Gap;
    var found := LiteralStart(text, pos, end);
    var seen := text[found];
  }

  /** Where one written token stands in the text. */
  lemma TokenStands(text: Text, pos: nat, w: Written, rest: Text)
    requires Spelled(w) && pos <= |text| && text[pos..] == w.gap + w.literal + rest
    ensures var start, end := pos + |w.gap|, pos + |w.gap| + |w.literal|;
            && LiteralStart(text, pos, end) == start < end <= |text|
            && text[pos..start] == w.gap && text[start..end] == w.literal && text[end..] == rest
  {
    var start, end := pos + |w.gap|, pos + |w.gap| + |w.literal|;
    var t := text[pos..];
    assert forall i :: pos <= i < |text| ==> text[i] == t[i - pos];
    assert text[pos..start] == t[..|w.gap|] && text[start..end] == t[|w.gap|..|w.gap| + |w.literal|];
    assert text[end..] == t[|w.gap| + |w.literal|..];
    forall i | pos <= i < start
      ensures Gap(text[i])
    {
      assert text[i] == w.gap[i - pos];
      GapIsBetween(text[i]);
    }
    assert text[start] == w.literal[0];
    NoGapBegins(w.token, w.literal[0]);
    GapIsBetween(text[start]);
    FindsLiteral(text, pos, start, end);
  }

  /** The weave of a written document is its pieces, each token's under its role's escape. */
  lemma {:induction false} WeaveIsPieces(text: Text, pos: nat, ws: seq<Written>, roles: seq<Role>, last: Text)
    requires |roles| == |ws| && forall i :: 0 <= i < |ws| ==> Spelled(ws[i])
    requires pos <= |text| && text[pos..] == TextOf(ws, last)
    ensures var lexemes := LexemesOf(pos, ws);
            && Monotone(text, pos, lexemes) && Literals(text, pos, lexemes)
            && Weave(text, pos, lexemes, roles) == Assemble(Pieces(ws, Tints(roles), last))
    decreases |ws|
  {
    if ws == [] {
      OnePiece(Piece([], last));
    } else {
      var w, end := ws[0], pos + |ws[0].gap| + |ws[0].literal|;
      FirstWritten(pos, ws, roles, last);
      TokenStands(text, pos, w, TextOf(ws[1..], last));
      hide Weave, Assemble, Monotone, Literals, Spelled, LiteralStart, TextOf, LexemesOf, Pieces, Tints, Tint;
      WeaveIsPieces(text, end, ws[1..], roles[1..], last);
      WeaveMore(text, pos, end, w, LexemesOf(end, ws[1..]), roles, Pieces(ws[1..], Tints(roles[1..]), last));
    }
  }

  lemma FirstWritten(pos: nat, ws: seq<Written>, roles: seq<Role>, last: Text)
    requires |roles| == |ws| > 0
    ensures TextOf(ws, last) == ws[0].gap + ws[0].literal + TextOf(ws[1..], last)
    ensures var end := pos + |ws[0].gap| + |ws[0].literal|; LexemesOf(pos, ws) == [Lexeme(ws[0].token, end)] + LexemesOf(end, ws[1..])
    ensures Pieces(ws, Tints(roles), last)
         == [Piece([], ws[0].gap)] + ([Piece(Tint(roles[0]), ws[0].literal)] + Pieces(ws[1..], Tints(roles[1..]), last))
  {
    assert Tints(roles)[1..] == Tints(roles[1..]);
    hide Tint;
  }

  lemma WeaveMore(text: Text, pos: nat, end: nat, w: Written, lexemes: seq<Lexeme>, roles: seq<Role>, pieces: seq<Piece>)
    requires |roles| == |lexemes| + 1 && pos <= end <= |text| && Monotone(text, end, lexemes) && Literals(text, end, lexemes)
    requires LiteralStart(text, pos, end) == pos + |w.gap| < end
    requires text[pos..pos + |w.gap|] == w.gap && text[pos + |w.gap|..end] == w.literal
    requires Weave(text, end, lexemes, roles[1..]) == Assemble(pieces)
    ensures var all := [Lexeme(w.token, end)] + lexemes;
            && Monotone(text, pos, all) && Literals(text, pos, all)
            && Weave(text, pos, all, roles) == Assemble([Piece([], w.gap)] + ([Piece(Tint(roles[0]), w.literal)] + pieces))
  {
    hide Weave, Assemble, Write, Paint, Monotone, Literals, LiteralStart, Tint;
    var all := [Lexeme(w.token, end)] + lexemes;
    assert all[0] == Lexeme(w.token, end) && all[1..] == lexemes;
    MonotoneStep(text, pos, all, end, lexemes);
    LiteralsStep(text, pos, all);
    WeaveFirst(text, pos, all, roles);
    PaintIsWrite(roles[0], w.literal);
    AssembleToken(w, Tint(roles[0]), pieces);
  }

  lemma MonotoneStep(text: Text, pos: nat, lexemes: seq<Lexeme>, end: nat, rest: seq<Lexeme>)
    requires lexemes != [] && lexemes[0].end == end && lexemes[1..] == rest && pos <= end <= |text| && Monotone(text, end, rest)
    ensures Monotone(text, pos, lexemes)
  {
  }

  lemma LiteralsStep(text: Text, pos: nat, lexemes: seq<Lexeme>)
    requires Monotone(text, pos, lexemes) && lexemes != [] && pos <= lexemes[0].end <= |text| && Monotone(text, lexemes[0].end, lexemes[1..])
    requires LiteralStart(text, pos, lexemes[0].end) < lexemes[0].end && Literals(text, lexemes[0].end, lexemes[1..])
    ensures Literals(text, pos, lexemes)
  {
    hide Monotone, LiteralStart;
  }

  lemma WeaveFirst(text: Text, pos: nat, lexemes: seq<Lexeme>, roles: seq<Role>)
    requires Monotone(text, pos, lexemes) && lexemes != [] && |roles| == |lexemes| && pos <= lexemes[0].end <= |text|
    requires Monotone(text, lexemes[0].end, lexemes[1..])
    ensures var end := lexemes[0].end;
            var start := LiteralStart(text, pos, end);
            Weave(text, pos, lexemes, roles) == text[pos..start] + Paint(roles[0], text[start..end]) + Weave(text, end, lexemes[1..], roles[1..])
  {
    hide Monotone, LiteralStart, Paint;
  }

  lemma AssembleToken(w: Written, shade: Text, rest: seq<Piece>)
    ensures Assemble([Piece([], w.gap)] + ([Piece(shade, w.literal)] + rest)) == w.gap + Write(Piece(shade, w.literal)) + Assemble(rest)
  {
    var gap, literal := Piece([], w.gap), Piece(shade, w.literal);
    OnePiece(gap);
    OnePiece(literal);
    PiecesConcat([literal], rest);
    PiecesConcat([gap], [literal] + rest);
    assert Write(gap) == w.gap;
    hide Assemble, Write;
    Strings.Concat3(w.gap, Write(literal), Assemble(rest));
  }

  lemma PaintIsWrite(role: Role, literal: Text)
    ensures Paint(role, literal) == Write(Piece(Tint(role), literal))
  {
    EscapesSpelled();
    hide Escape;
  }

  // ---- The document on a terminal ----

  lemma {:induction false} ShadesAreProper(ws: seq<Written>, roles: seq<Role>, last: Text)
    requires |roles| == |ws|
    ensures forall i :: 0 <= i < |Pieces(ws, Tints(roles), last)| ==> Proper(Pieces(ws, Tints(roles), last)[i])
    decreases |ws|
  {
    if ws != [] {
      ShadesAreProper(ws[1..], roles[1..], last);
      assert Tints(roles)[1..] == Tints(roles[1..]);
    }
  }

  /** However a document of JSON values is spelled, a terminal shows its coloured text in its own
      order with each member's name blue, each other string and each number green, and everything
      else plain, exactly when no run between two colours holds an escape. */
  lemma DocumentShows(ws: seq<Written>, last: Text, values: Items)
    requires forall i :: 0 <= i < |ws| ==> Spelled(ws[i])
    requires TokensIn(ws) == TokenizeItems(values)
    ensures |ShadeItems(values)| == |ws|
    ensures var text, reading := TextOf(ws, last), Reading(LexemesOf(0, ws), false);
            && Monotone(text, 0, reading.lexemes)
            && (Render(Coloured(text, reading)) == Shown(ws, ShadeItems(values), last) <==> Clean(text, reading))
  {
    var text, lexemes := TextOf(ws, last), LexemesOf(0, ws);
    var roles := Roles([], TokensIn(ws));
    assert TokensOf(lexemes) == TokensIn(ws);
    assert text[0..] == text;
    WeaveIsPieces(text, 0, ws, roles, last);
    DocumentColours(text, Reading(lexemes, false), values);
    PiecesShow(ws, Tints(roles), last);
    ShadesAreProper(ws, roles, last);
    JsonErasureIsExact(text, Reading(lexemes, false));
    hide Weave, Assemble, Roles, Coloured, Clean, Render, Strip, Shown, Pieces;
    RenderIsExact(Pieces(ws, Tints(roles), last));
  }

  /** So it does for every document that holds no escape character, which RFC 8259 allows in none
      (sections 2 and 7). */
  lemma DocumentShowsText(ws: seq<Written>, last: Text, values: Items)
    requires forall i :: 0 <= i < |ws| ==> Spelled(ws[i])
    requires TokensIn(ws) == TokenizeItems(values) && ESC !in TextOf(ws, last)
    ensures |ShadeItems(values)| == |ws| && Monotone(TextOf(ws, last), 0, LexemesOf(0, ws))
    ensures Render(Coloured(TextOf(ws, last), Reading(LexemesOf(0, ws), false))) == Shown(ws, ShadeItems(values), last)
  {
    var text, reading := TextOf(ws, last), Reading(LexemesOf(0, ws), false);
    DocumentShows(ws, last, values);
    JsonErasure(text, reading);
    JsonErasureIsExact(text, reading);
    hide Coloured, Clean, Render, Strip, Shown;
  }
}
