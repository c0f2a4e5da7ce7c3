/** What a SQL colouring shows once its escapes are stripped: the text itself, exactly
    when the text held no escape of its own and no stray byte in its code. */
module SqlErasure {
  import opened Ansi
  import opened Sql
  import Strings

  // ---- The text the colouring writes, without its colours ----

  function Repair(t: Text): (r: Text)
    ensures |r| == |t| && forall i :: 0 <= i < |t| ==> r[i] == Written(t[i])
  {
    seq(|t|, i requires 0 <= i < |t| => Written(t[i]))
  }

  function RepairSpan(s: Span): (t: Text)
    ensures |t| == |s.text|
  {
    if s.Code? then Repair(s.text) else s.text
  }

  function RepairSpans(ss: seq<Span>): Text {
    if ss == [] then [] else RepairSpan(ss[0]) + RepairSpans(ss[1..])
  }

  function RepairLine(line: Text): Text { RepairSpans(LineSpans(line)) }

  function RepairLines(lines: seq<Text>): (repaired: seq<Text>)
    ensures |repaired| == |lines|
  {
    seq(|lines|, i requires 0 <= i < |lines| => RepairLine(lines[i]))
  }

  /** The text with each stray byte of its code replaced by U+FFFD. */
  function Repaired(text: Text): Text {
    Strings.Join(RepairLines(Strings.Split(text, NEWLINE)), NEWLINE)
  }

  /** A stray byte in a comment or a marker is copied; one in code is not. */
  ghost predicate CleanCode(text: Text) {
    var lines := Strings.Split(text, NEWLINE);
    forall i, s :: 0 <= i < |lines| && s in LineSpans(lines[i]) && s.Code? ==> forall u :: u in s.text ==> u.Rune?
  }

  // ---- A repaired text is as long as the text, and is the text when its code is clean ----

  lemma {:induction false} RepairSpansText(ss: seq<Span>)
    ensures |RepairSpans(ss)| == |SpansText(ss)|
    ensures RepairSpans(ss) == SpansText(ss) <==> forall s :: s in ss && s.Code? ==> forall u :: u in s.text ==> u.Rune?
  {
    if ss != [] {
      RepairSpansText(ss[1..]);
      var s := ss[0];
      assert ss == [s] + ss[1..];
      assert RepairSpan(s) == s.text <==> (s.Code? ==> forall u :: u in s.text ==> u.Rune?) by {
        if s.Code? && RepairSpan(s) == s.text {
          forall u | u in s.text
            ensures u.Rune?
          {
            var k :| 0 <= k < |s.text| && s.text[k] == u;
            assert Written(u) == u;
          }
        } else if s.Code? && forall u :: u in s.text ==> u.Rune? {
          assert forall k :: 0 <= k < |s.text| ==> s.text[k] in s.text;
        }
      }
      var a, b := RepairSpan(s) + RepairSpans(ss[1..]), s.text + SpansText(ss[1..]);
      if a == b {
        assert a[..|s.text|] == b[..|s.text|] && a[|s.text|..] == b[|s.text|..];
      }
    }
  }

  function SpansText(ss: seq<Span>): Text {
    if ss == [] then [] else ss[0].text + SpansText(ss[1..])
  }

  lemma {:induction false} PartitionText(line: Text, ss: seq<Span>)
    requires Partition(line, ss)
    ensures SpansText(ss) == line
    decreases |ss|
  {
    if ss != [] {
      PartitionText(line[|ss[0].text|..], ss[1..]);
      assert line == ss[0].text + line[|ss[0].text|..];
    }
  }

  lemma LineText(line: Text)
    ensures SpansText(LineSpans(line)) == line
  {
    if At(TrimLeft(line), 0, COMMENT) {
      assert SpansText([Comment(line)]) == line + SpansText([]);
    } else {
      SpansPartition(line);
      PartitionText(line, Spans(line));
    }
  }

  lemma {:induction false} JoinSameLengths(a: seq<Text>, b: seq<Text>)
    requires |a| == |b| >= 1 && forall i :: 0 <= i < |a| ==> |a[i]| == |b[i]|
    ensures |Strings.Join(a, NEWLINE)| == |Strings.Join(b, NEWLINE)|
    ensures Strings.Join(a, NEWLINE) == Strings.Join(b, NEWLINE) <==> a == b
    decreases |a|
  {
    if |a| == 1 {
      assert a == [a[0]] && b == [b[0]];
    } else {
      JoinSameLengths(a[1..], b[1..]);
      var x, y := Strings.Join(a, NEWLINE), Strings.Join(b, NEWLINE);
      var n := |a[0]|;
      assert x[..n] == a[0] && x[n + 1..] == Strings.Join(a[1..], NEWLINE);
      assert y[..n] == b[0] && y[n + 1..] == Strings.Join(b[1..], NEWLINE);
      if x == y {
        assert a == [a[0]] + a[1..] && b == [b[0]] + b[1..];
      }
    }
  }

  /** Repairing changes no length, and changes nothing exactly when the code is clean. */
  lemma RepairedText(text: Text)
    ensures |Repaired(text)| == |text|
    ensures Repaired(text) == text <==> CleanCode(text)
  {
    var lines := Strings.Split(text, NEWLINE);
    var repaired := RepairLines(lines);
    Strings.JoinSplit(text, NEWLINE);
    forall i | 0 <= i < |lines|
      ensures |repaired[i]| == |lines[i]|
      ensures repaired[i] == lines[i] <==>
              forall s :: s in LineSpans(lines[i]) && s.Code? ==> forall u :: u in s.text ==> u.Rune?
    {
      RepairSpansText(LineSpans(lines[i]));
      LineText(lines[i]);
    }
    JoinSameLengths(repaired, lines);
    assert repaired == lines <==> forall i :: 0 <= i < |lines| ==> repaired[i] == lines[i];
  }

  // ---- A colouring scans as the repaired text does ----

  /** Every keyword begins and ends with a letter, so no escape is broken by colouring it. */
  lemma KeywordEdges(word: Text)
    requires Keyword(word)
    ensures |word| > 0 && Breaker(word[0]) && Breaker(word[|word| - 1])
  {
    var s := Spelling(word);
    assert |s| > 0 && 'A' <= s[0] <= 'Z' && 'A' <= s[|s| - 1] <= 'Z';
  }

  lemma RepairConcat(a: Text, b: Text)
    ensures Repair(a + b) == Repair(a) + Repair(b)
  {
  }

  lemma RunesNeedNone(t: Text)
    requires forall u :: u in t ==> u.Rune?
    ensures Repair(t) == t
  {
    assert forall i :: 0 <= i < |t| ==> t[i] in t;
  }

  lemma ScanToken(s: Scanner, t: Token)
    requires s.Valid() && WordOrOther(t)
    ensures Scan(s, Paint(t)) == Scan(s, Repair(TokenText(t)))
  {
    match t
    case Other(u) =>
      assert Repair([u]) == [Written(u)];
    case Word(text) =>
      RunesNeedNone(text);
      if Keyword(text) {
        KeywordEdges(text);
        ScanWrapped(s, BOLD, text);
        ScanEndsClear(s, text);
        assert Scan(s, text).Flush() == Scan(s, text).out;
      }
  }

  lemma {:induction false} ScanTokens(s: Scanner, ts: seq<Token>)
    requires s.Valid() && forall t :: t in ts ==> WordOrOther(t)
    ensures Scan(s, PaintAll(ts)) == Scan(s, Repair(TokensText(ts)))
    decreases |ts|
  {
    if ts != [] {
      var next := Scan(s, Paint(ts[0]));
      ScanToken(s, ts[0]);
      ScanKeepsValid(s, Paint(ts[0]));
      ScanTokens(next, ts[1..]);
      hide Paint, Scan;
      ScanConcat(s, Paint(ts[0]), PaintAll(ts[1..]));
      RepairConcat(TokenText(ts[0]), TokensText(ts[1..]));
      ScanConcat(s, Repair(TokenText(ts[0])), Repair(TokensText(ts[1..])));
    }
  }

  lemma ScanPaintedCode(s: Scanner, code: Text)
    requires s.Valid()
    ensures Scan(s, PaintCode(code)) == Scan(s, Repair(code))
  {
    TokensAreWords(code);
    ScanTokens(s, Tokens(code));
  }

  /** How the spans of a line are framed: a marker by braces, and only the last a comment. */
  ghost predicate Framed(ss: seq<Span>) {
    && (forall s :: s in ss && s.Marker? ==> |s.text| > 0 && Breaker(s.text[0]) && Breaker(s.text[|s.text| - 1]))
    && (forall i :: 0 <= i < |ss| && ss[i].Comment? ==> i == |ss| - 1 && |ss[i].text| > 0 && Breaker(ss[i].text[0]))
  }

  predicate Edged(s: Span) {
    && (s.Marker? ==> |s.text| > 0 && Breaker(s.text[0]) && Breaker(s.text[|s.text| - 1]))
    && (s.Comment? ==> |s.text| > 0 && Breaker(s.text[0]))
  }

  lemma FramedCons(s: Span, ss: seq<Span>)
    requires Edged(s) && Framed(ss) && (s.Comment? ==> ss == [])
    ensures Framed([s] + ss)
  {
  }

  lemma FirstEdged(line: Text, ss: seq<Span>)
    requires Partition(line, ss) && ss != []
    ensures Edged(ss[0]) && (ss[0].Comment? ==> ss[1..] == [])
  {
    var s := ss[0];
    match s
    case Code(_) =>
    case Comment(text) =>
      assert line[0..2][0] == COMMENT[0];
      assert line[|s.text|..] == [];
      assert ss[1..] == [];
    case Marker(text) =>
      var i := Index(line, CLOSE);
      assert line[0..2][0] == OPEN[0];
      assert At(line, i, CLOSE);
      assert line[i..i + 2][1] == CLOSE[1];
      assert text[0] == line[0] && text[|text| - 1] == line[i + 1];
  }

  lemma {:induction false} PartitionFramed(line: Text, ss: seq<Span>)
    requires Partition(line, ss)
    ensures Framed(ss)
    decreases |ss|
  {
    if ss != [] {
      FirstEdged(line, ss);
      PartitionFramed(line[|ss[0].text|..], ss[1..]);
      hide Partition, Framed, Edged;
      FramedCons(ss[0], ss[1..]);
      assert ss == [ss[0]] + ss[1..];
    }
  }

  lemma TrimmedEdge(line: Text)
    requires At(TrimLeft(line), 0, COMMENT)
    ensures line != [] && Breaker(line[0])
  {
    if line != [] && !Indent(line[0]) {
      assert line[0..2][0] == COMMENT[0];
    }
  }

  lemma LineFramed(line: Text)
    ensures Framed(LineSpans(line))
  {
    if At(TrimLeft(line), 0, COMMENT) {
      TrimmedEdge(line);
    } else {
      SpansPartition(line);
      PartitionFramed(line, Spans(line));
    }
  }

  lemma ScanSpan(s: Scanner, span: Span)
    requires s.Valid() && Framed([span])
    ensures !span.Comment? ==> Scan(s, PaintSpan(span)) == Scan(s, RepairSpan(span))
    ensures Scan(s, PaintSpan(span)).Flush() == Scan(s, RepairSpan(span)).Flush()
  {
    assert span in [span] && [span][0] == span;
    match span
    case Code(text) => ScanPaintedCode(s, text);
    case Marker(text) =>
      ScanWrapped(s, GREEN, text);
      ScanEndsClear(s, text);
      assert Scan(s, text).Flush() == Scan(s, text).out;
    case Comment(text) =>
      ScanWrapped(s, DIM, text);
      assert Scan(s, text).Flush() + [] == Scan(s, text).Flush();
  }

  lemma {:induction false} ScanSpans(s: Scanner, ss: seq<Span>)
    requires s.Valid() && Framed(ss)
    ensures Scan(s, PaintSpans(ss)).Flush() == Scan(s, RepairSpans(ss)).Flush()
    decreases |ss|
  {
    if ss != [] {
      var span := ss[0];
      assert Framed([span]) && Framed(ss[1..]) && span in ss;
      ScanSpan(s, span);
      ScanKeepsValid(s, PaintSpan(span));
      ScanConcat(s, PaintSpan(span), PaintSpans(ss[1..]));
      ScanConcat(s, RepairSpan(span), RepairSpans(ss[1..]));
      if span.Comment? {
        assert ss[1..] == [];
      } else {
        ScanSpans(Scan(s, PaintSpan(span)), ss[1..]);
      }
    }
  }

  lemma ScanLine(s: Scanner, line: Text)
    requires s.Valid()
    ensures Scan(s, PaintLine(line)).Flush() == Scan(s, RepairLine(line)).Flush()
    ensures Scan(s, PaintLine(line) + [NEWLINE]) == Scan(s, RepairLine(line) + [NEWLINE])
  {
    LineFramed(line);
    ScanSpans(s, LineSpans(line));
    hide PaintLine, RepairLine, Scan;
    ScanConcat(s, PaintLine(line), [NEWLINE]);
    ScanConcat(s, RepairLine(line), [NEWLINE]);
    var a, b := Scan(s, PaintLine(line)), Scan(s, RepairLine(line));
    ScanOne(a, NEWLINE);
    ScanOne(b, NEWLINE);
    BreakerEnds(a, NEWLINE);
    BreakerEnds(b, NEWLINE);
  }

  lemma {:induction false} ScanLines(s: Scanner, lines: seq<Text>)
    requires s.Valid() && |lines| >= 1
    ensures Scan(s, Strings.Join(PaintLines(lines), NEWLINE)).Flush()
         == Scan(s, Strings.Join(RepairLines(lines), NEWLINE)).Flush()
    decreases |lines|
  {
    hide PaintLine, RepairLine, Scan;
    ScanLine(s, lines[0]);
    if |lines| > 1 {
      var head, tail := PaintLine(lines[0]) + [NEWLINE], Strings.Join(PaintLines(lines[1..]), NEWLINE);
      var head', tail' := RepairLine(lines[0]) + [NEWLINE], Strings.Join(RepairLines(lines[1..]), NEWLINE);
      assert PaintLines(lines)[1..] == PaintLines(lines[1..]) && RepairLines(lines)[1..] == RepairLines(lines[1..]);
      ScanConcat(s, head, tail);
      ScanConcat(s, head', tail');
      ScanKeepsValid(s, head);
      ScanLines(Scan(s, head), lines[1..]);
    }
  }

  /** Stripping the colouring shows what stripping the repaired text shows, for any text. */
  lemma ErasureShowsRepaired(text: Text)
    ensures Strip(PaintText(text)) == Strip(Repaired(text))
  {
    StripByScan(PaintText(text));
    StripByScan(Repaired(text));
    ScanLines(Scanner([], []), Strings.Split(text, NEWLINE));
  }

  /** Stripping the colouring gives the text back exactly when the text held no escape and
      no stray byte in its code. */
  lemma ErasureIsExact(text: Text)
    ensures Strip(PaintText(text)) == text <==> Strip(text) == text && CleanCode(text)
  {
    ErasureShowsRepaired(text);
    RepairedText(text);
    StripShortens(Repaired(text));
  }

  /** A byte outside UTF-8 in code, and an escape the text held already, do not come back. */
  lemma ErasureFails()
    ensures Strip(PaintText([Stray(0xFF)])) != [Stray(0xFF)]
    ensures Strip(PaintText(RESET)) != RESET
  {
    var stray: Text := [Stray(0xFF)];
    assert Strings.Split(stray[1..], NEWLINE) == [[]];
    assert Strings.Split(stray, NEWLINE)[0] == stray;
    assert !CleanCode(stray) by {
      assert TrimLeft(stray) == stray;
      assert Spans(stray[1..]) == [];
      assert LineSpans(stray) == [Code(stray)];
      assert stray[0] in stray && Code(stray) in LineSpans(stray);
    }
    ErasureIsExact(stray);
    ScanCode(Scanner([], []), RESET);
    StripByScan(RESET);
    ErasureIsExact(RESET);
  }
}
