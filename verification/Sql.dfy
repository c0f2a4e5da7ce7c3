/** The SQL colourer: comments dimmed, sqlate markers in the value colour, whole-word
    keywords bold. The reference below scans a line a unit at a time; the colourer
    searches for the next comment and marker and slices the line there. */
module Sql {
  import opened Ansi
  import Strings

  const NEWLINE: Unit := Rune('\n')
  /** What Go's range loop yields for a byte that begins no valid encoding. */
  const REPLACEMENT: Unit := Rune('\U{FFFD}')
  const COMMENT: Text := [Rune('-'), Rune('-')]
  const OPEN: Text := [Rune('{'), Rune('{')]
  const CLOSE: Text := [Rune('}'), Rune('}')]

  const KEYWORDS: set<string> := {
    "SELECT", "FROM", "WHERE", "INSERT", "UPDATE", "DELETE", "SET", "JOIN", "ON", "AND", "OR",
    "ORDER", "BY", "GROUP", "LIMIT", "OFFSET", "VALUES", "INTO", "RETURNING"
  }

  /** Whether a word is a listed keyword; the match is exact. */
  predicate Keyword(word: Text) {
    (forall i :: 0 <= i < |word| ==> word[i].Rune?) && Spelling(word) in KEYWORDS
  }

  function Spelling(word: Text): (s: string)
    requires forall i :: 0 <= i < |word| ==> word[i].Rune?
    ensures |s| == |word| && forall i :: 0 <= i < |word| ==> s[i] == word[i].c
  {
    seq(|word|, i requires 0 <= i < |word| => word[i].c)
  }

  predicate WordUnit(u: Unit) {
    u.Rune? && (u.c == '_' || '0' <= u.c <= '9' || 'a' <= u.c <= 'z' || 'A' <= u.c <= 'Z')
  }

  // ---- Searching ----

  predicate At(t: Text, i: nat, pattern: Text) {
    i + |pattern| <= |t| && t[i..i + |pattern|] == pattern
  }

  /** Places in the rest of a text are places in the text. */
  lemma AtLater(t: Text, n: nat, pattern: Text)
    requires n <= |t|
    ensures forall k: nat :: At(t[n..], k, pattern) == At(t, n + k, pattern)
    ensures forall k: nat :: k >= n ==> At(t, k, pattern) == At(t[n..], k - n, pattern)
  {
    forall k: nat
      ensures At(t[n..], k, pattern) == At(t, n + k, pattern)
    {
      if n + k + |pattern| <= |t| {
        assert t[n..][k..k + |pattern|] == t[n + k..n + k + |pattern|];
      }
    }
    forall k: nat | k >= n
      ensures At(t, k, pattern) == At(t[n..], k - n, pattern)
    {
      assert At(t[n..], k - n, pattern) == At(t, n + (k - n), pattern);
    }
  }

  /** The first place of the pattern in t, or -1. */
  function Index(t: Text, pattern: Text): (i: int)
    ensures i < 0 <==> forall k: nat :: !At(t, k, pattern)
    ensures i >= 0 ==> At(t, i, pattern) && forall k: nat :: k < i ==> !At(t, k, pattern)
  {
    IndexFrom(t, pattern, 0)
  }

  function IndexFrom(t: Text, pattern: Text, from: nat): (i: int)
    ensures i < 0 ==> forall k: nat :: k >= from ==> !At(t, k, pattern)
    ensures i >= 0 ==> i >= from && At(t, i, pattern) && forall k: nat :: from <= k < i ==> !At(t, k, pattern)
    decreases |t| - from
  {
    if from + |pattern| > |t| then -1
    else if At(t, from, pattern) then from
    else if from == |t| then -1
    else IndexFrom(t, pattern, from + 1)
  }

  // ---- The reference: spans of a line, words of the code in it ----

  datatype Span = Code(text: Text) | Marker(text: Text) | Comment(text: Text)

  function Push(u: Unit, spans: seq<Span>): seq<Span> {
    if spans != [] && spans[0].Code? then [Code([u] + spans[0].text)] + spans[1..]
    else [Code([u])] + spans
  }

  /** A line's spans, read a unit at a time: a comment takes the rest of the line, a
      closed marker runs through the first "}}" after it opens, and any other unit is
      code. */
  function Spans(line: Text): seq<Span>
    decreases |line|
  {
    if line == [] then []
    else if At(line, 0, COMMENT) then [Comment(line)]
    else if At(line, 0, OPEN) && Index(line, CLOSE) >= 0 then
      var end := Index(line, CLOSE) + |CLOSE|;
      [Marker(line[..end])] + Spans(line[end..])
    else Push(line[0], Spans(line[1..]))
  }

  predicate Indent(u: Unit) { u == Rune(' ') || u == Rune('\t') }

  function TrimLeft(line: Text): Text {
    if line != [] && Indent(line[0]) then TrimLeft(line[1..]) else line
  }

  /** A line whose first characters after its indentation open a comment is all comment. */
  function LineSpans(line: Text): seq<Span> {
    if At(TrimLeft(line), 0, COMMENT) then [Comment(line)] else Spans(line)
  }

  datatype Token = Word(text: Text) | Other(unit: Unit)

  /** How many units the word that code begins with has. */
  function WordLength(code: Text): (n: nat)
    ensures n <= |code|
    ensures forall i :: 0 <= i < n ==> WordUnit(code[i])
    ensures n < |code| ==> !WordUnit(code[n])
  {
    if code != [] && WordUnit(code[0]) then 1 + WordLength(code[1..]) else 0
  }

  function Tokens(code: Text): seq<Token>
    decreases |code|
  {
    if code == [] then []
    else if WordLength(code) > 0 then [Word(code[..WordLength(code)])] + Tokens(code[WordLength(code)..])
    else [Other(code[0])] + Tokens(code[1..])
  }

  function TokenText(t: Token): Text {
    match t case Word(text) => text case Other(u) => [u]
  }

  function TokensText(ts: seq<Token>): Text {
    if ts == [] then [] else TokenText(ts[0]) + TokensText(ts[1..])
  }

  /** The words of a code span: each a maximal run of word units. */
  ghost predicate Tokenized(code: Text, ts: seq<Token>) {
    && TokensText(ts) == code
    && (forall i :: 0 <= i < |ts| ==> WordOrOther(ts[i]))
    && (forall i :: 0 < i < |ts| ==> ts[i - 1].Word? ==> ts[i].Other?)
  }

  /** A word is of letters, digits, and underscores of ASCII alone, and nothing else is. */
  ghost predicate WordOrOther(t: Token) {
    match t
    case Word(text) =>
      text != [] && forall u :: u in text ==> u.Rune? && (u.c == '_' || '0' <= u.c <= '9' || 'a' <= u.c <= 'z' || 'A' <= u.c <= 'Z')
    case Other(u) => !(u.Rune? && (u.c == '_' || '0' <= u.c <= '9' || 'a' <= u.c <= 'z' || 'A' <= u.c <= 'Z'))
  }

  lemma TokenizedCons(first: Token, code: Text, ts: seq<Token>)
    requires WordOrOther(first) && Tokenized(code, ts)
    requires first.Word? && ts != [] ==> ts[0].Other?
    ensures Tokenized(TokenText(first) + code, [first] + ts)
  {
    assert ([first] + ts)[1..] == ts;
  }

  lemma FirstIsWordOrOther(code: Text)
    requires code != []
    ensures var n := WordLength(code);
            n <= |code| && WordOrOther(if n > 0 then Word(code[..n]) else Other(code[0])) && (n < |code| ==> !WordUnit(code[n]))
  {
  }

  lemma {:induction false} TokensAreWords(code: Text)
    ensures Tokenized(code, Tokens(code))
    ensures code != [] && !WordUnit(code[0]) ==> Tokens(code)[0].Other?
    decreases |code|
  {
    if code == [] {
      assert Tokens([]) == [];
    } else {
      hide Tokens, TokensText, Tokenized, WordLength, WordOrOther, WordUnit;
      var first, rest := TokenSplits(code);
      TokensAreWords(rest);
      TokenizedCons(first, rest, Tokens(rest));
      assert ([first] + Tokens(rest))[0] == first;
    }
  }

  /** Code's first word or other unit, and the rest. */
  lemma TokenSplits(code: Text) returns (first: Token, rest: Text)
    requires code != []
    ensures Tokens(code) == [first] + Tokens(rest) && code == TokenText(first) + rest && |rest| < |code|
    ensures WordOrOther(first) && (first.Other? <==> !WordUnit(code[0]))
    ensures first.Word? && rest != [] ==> !WordUnit(rest[0])
  {
    var n := WordLength(code);
    first := if n > 0 then Word(code[..n]) else Other(code[0]);
    rest := code[|TokenText(first)|..];
    TokensHead(code, first);
    FirstIsWordOrOther(code);
    hide Tokens;
  }

  /** Maximal words are the only way to read a code span. */
  lemma {:induction false} WordsAreUnique(code: Text, ts: seq<Token>)
    requires Tokenized(code, ts)
    ensures ts == Tokens(code)
    decreases |code|
  {
    if ts == [] {
      assert code == [];
    } else {
      hide Tokens, WordLength;
      FirstToken(code, ts);
      WordsAreUnique(code[|TokenText(ts[0])|..], ts[1..]);
      TokensHead(code, ts[0]);
      assert ts == [ts[0]] + ts[1..];
    }
  }

  lemma FirstToken(code: Text, ts: seq<Token>)
    requires ts != [] && Tokenized(code, ts)
    ensures code != []
    ensures |TokenText(ts[0])| == if WordLength(code) > 0 then WordLength(code) else 1
    ensures code[..|TokenText(ts[0])|] == TokenText(ts[0])
    ensures Tokenized(code[|TokenText(ts[0])|..], ts[1..])
  {
    var rest := TokensText(ts[1..]);
    assert code == TokenText(ts[0]) + rest;
    match ts[0]
    case Other(u) =>
      assert code[0] == u;
      assert code[1..] == rest;
    case Word(text) =>
      assert forall k :: 0 <= k < |text| ==> code[k] == text[k] && WordUnit(code[k]);
      assert WordLength(code) >= |text|;
      if |ts| > 1 {
        assert ts[1].Other? && rest == TokenText(ts[1]) + TokensText(ts[1..][1..]);
        assert code[|text|] == rest[0] == ts[1].unit;
      } else {
        assert rest == [];
      }
      assert code[..|text|] == text && code[|text|..] == rest;
  }

  // ---- The reference rendering ----

  /** How a unit of code is written: the range loop turns a stray byte into U+FFFD. */
  function Written(u: Unit): Unit {
    if u.Stray? then REPLACEMENT else u
  }

  function Paint(t: Token): Text {
    match t
    case Word(text) => if Keyword(text) then Bold(text) else text
    case Other(u) => [Written(u)]
  }

  function PaintAll(ts: seq<Token>): Text {
    if ts == [] then [] else Paint(ts[0]) + PaintAll(ts[1..])
  }

  function PaintCode(code: Text): Text { PaintAll(Tokens(code)) }

  function PaintSpan(s: Span): Text {
    match s
    case Code(text) => PaintCode(text)
    case Marker(text) => Value(text)
    case Comment(text) => Dim(text)
  }

  function PaintSpans(ss: seq<Span>): Text {
    if ss == [] then [] else PaintSpan(ss[0]) + PaintSpans(ss[1..])
  }

  function PaintLine(line: Text): Text { PaintSpans(LineSpans(line)) }

  function PaintLines(lines: seq<Text>): (painted: seq<Text>)
    ensures |painted| == |lines|
  {
    seq(|lines|, i requires 0 <= i < |lines| => PaintLine(lines[i]))
  }

  function PaintText(text: Text): Text {
    PaintJoined(Strings.Split(text, NEWLINE))
  }

  // ---- The spans partition a line ----

  /** Whether a comment or a closed marker begins at k. */
  predicate Splits(line: Text, k: nat) {
    k <= |line| && (At(line, k, COMMENT) || (At(line, k, OPEN) && Index(line[k..], CLOSE) >= 0))
  }

  /** What the spans of a line are: a comment takes everything left and begins with "--";
      a marker runs from "{{" through the first "}}"; code runs as far as no comment and
      no closed marker begins. */
  ghost predicate Partition(line: Text, ss: seq<Span>)
    decreases |ss|
  {
    if ss == [] then line == [] else
      var s := ss[0];
      && s.text != [] && s.text <= line
      && Partition(line[|s.text|..], ss[1..])
      && match s
         case Comment(text) => text == line && At(line, 0, COMMENT)
         case Marker(text) => At(line, 0, OPEN) && Index(line, CLOSE) >= 0 && |text| == Index(line, CLOSE) + |CLOSE|
         case Code(text) =>
           && Unsplit(line, |text|)
           && (|text| < |line| ==> Splits(line, |text|))
  }

  lemma SplitsLater(line: Text, n: nat)
    requires n <= |line|
    ensures forall k: nat :: n <= k <= |line| ==> Splits(line[n..], k - n) == Splits(line, k)
  {
    AtLater(line, n, COMMENT);
    AtLater(line, n, OPEN);
    forall k: nat | n <= k <= |line|
      ensures Splits(line[n..], k - n) == Splits(line, k)
    {
      assert line[n..][k - n..] == line[k..];
    }
  }

  lemma SplitSpan(line: Text)
    ensures line != [] ==> (Splits(line, 0) <==> Spans(line) != [] && !Spans(line)[0].Code?)
    ensures line != [] && !Splits(line, 0) ==> Spans(line) == Push(line[0], Spans(line[1..]))
  {
    assert line[0..] == line;
  }

  lemma PushRun(u: Unit, text: Text, tail: seq<Span>)
    ensures Push(u, [Code(text)] + tail) == [Code([u] + text)] + tail
    ensures tail == [] || !tail[0].Code? ==> Push(u, tail) == [Code([u])] + tail
  {
    assert ([Code(text)] + tail)[1..] == tail;
  }

  /** No comment and no closed marker begins before n. */
  ghost predicate Unsplit(line: Text, n: nat) {
    forall k: nat :: k < n ==> !Splits(line, k)
  }

  lemma UnsplitLater(line: Text, n: nat)
    requires 0 < n <= |line| && Unsplit(line, n)
    ensures Unsplit(line[1..], n - 1)
    ensures Splits(line[1..], n - 1) == Splits(line, n)
  {
    SplitsLater(line, 1);
    forall k: nat | k < n - 1
      ensures !Splits(line[1..], k)
    {
      assert Splits(line[1..], (k + 1) - 1) == Splits(line, k + 1);
    }
  }

  /** Code runs to the next comment or closed marker. */
  lemma {:induction false} CodeRun(line: Text, n: nat)
    requires n <= |line| && (n < |line| ==> Splits(line, n)) && Unsplit(line, n)
    ensures Spans(line) == (if n > 0 then [Code(line[..n])] else []) + Spans(line[n..])
    decreases n
  {
    if n == 0 {
      assert line[n..] == line;
    } else {
      assert !Splits(line, 0);
      hide Spans, Push, Splits, Unsplit;
      var rest := line[1..];
      SplitSpan(line);
      UnsplitLater(line, n);
      CodeRun(rest, n - 1);
      SplitSpan(rest);
      PushRun(line[0], rest[..n - 1], Spans(line[n..]));
      FirstOf(line, n);
    }
  }

  lemma FirstOf(line: Text, n: nat)
    requires 0 < n <= |line|
    ensures line[1..][n - 1..] == line[n..] && [line[0]] + line[1..][..n - 1] == line[..n]
    ensures n == 1 ==> line[..n] == [line[0]] && line[1..] == line[n..]
  {
  }

  lemma {:induction false} SpansPartition(line: Text)
    ensures Partition(line, Spans(line))
    decreases |line|
  {
    if line != [] {
      if At(line, 0, COMMENT) {
        assert Partition(line[|line|..], []);
        assert Spans(line)[1..] == [];
      } else if At(line, 0, OPEN) && Index(line, CLOSE) >= 0 {
        var end := Index(line, CLOSE) + |CLOSE|;
        SpansPartition(line[end..]);
        hide Index, IndexFrom;
        assert Spans(line)[1..] == Spans(line[end..]);
      } else {
        hide Spans, Partition, At, Index, IndexFrom;
        var n := CodeStarts(line);
        CodeRun(line, n);
        SpansPartition(line[n..]);
        PartitionCode(line, n, Spans(line[n..]));
      }
    }
  }

  /** Where no comment and no closed marker begins, some code does. */
  lemma CodeStarts(line: Text) returns (n: nat)
    requires line != [] && !At(line, 0, COMMENT) && !(At(line, 0, OPEN) && Index(line, CLOSE) >= 0)
    ensures 0 < n <= |line| && (n < |line| ==> Splits(line, n)) && Unsplit(line, n)
  {
    n := CodeLength(line);
    assert line[0..] == line;
  }

  lemma PartitionCode(line: Text, n: nat, rest: seq<Span>)
    requires 0 < n <= |line| && (n < |line| ==> Splits(line, n)) && Unsplit(line, n) && Partition(line[n..], rest)
    ensures Partition(line, [Code(line[..n])] + rest)
  {
    hide Splits, Unsplit;
    assert ([Code(line[..n])] + rest)[1..] == rest;
  }

  ghost function CodeLength(line: Text): (n: nat)
    ensures n <= |line| && (n < |line| ==> Splits(line, n))
    ensures Unsplit(line, n)
  {
    CodeLengthFrom(line, 0)
  }

  ghost function CodeLengthFrom(line: Text, i: nat): (n: nat)
    requires i <= |line| && Unsplit(line, i)
    ensures i <= n <= |line| && (n < |line| ==> Splits(line, n))
    ensures Unsplit(line, n)
    decreases |line| - i
  {
    if i == |line| || Splits(line, i) then i else CodeLengthFrom(line, i + 1)
  }

  /** The spans are the only partition of the line, so the partition says what they are. */
  lemma {:induction false} PartitionIsUnique(line: Text, ss: seq<Span>)
    requires Partition(line, ss)
    ensures ss == Spans(line)
    decreases |ss|
  {
    if ss != [] {
      var s := ss[0];
      PartitionIsUnique(line[|s.text|..], ss[1..]);
      assert ss == [s] + ss[1..];
      assert line[..|s.text|] == s.text;
      if s.Code? {
        CodeRun(line, |s.text|);
      } else if s.Comment? {
        assert line[|line|..] == [];
      } else {
        assert line[0..2][0] == OPEN[0] && line[0..2] != COMMENT;
      }
    }
  }

  // ---- The colourer ----

  /** Go's strings.Builder: text written so far. */
  class Builder {
    var text: Text

    constructor ()
      ensures text == []
    {
      text := [];
    }

    method WriteString(t: Text)
      modifies this
      ensures text == old(text) + t
    {
      text := text + t;
    }
  }

  lemma WordLengthConcat(a: Text, b: Text)
    requires a != []
    requires b == [] || !WordUnit(a[|a| - 1]) || !WordUnit(b[0])
    ensures WordLength(a + b) == WordLength(a)
  {
    var n, t := WordLength(a), a + b;
    assert forall i :: 0 <= i < |a| ==> t[i] == a[i];
    if n < |a| {
      assert !WordUnit(t[n]);
    } else if b != [] {
      assert WordUnit(a[n - 1]) && t[n] == b[0];
    }
  }

  /** The tokens of code are the first one, then those of the rest. */
  lemma TokensHead(code: Text, first: Token)
    requires code != []
    requires first == if WordLength(code) > 0 then Word(code[..WordLength(code)]) else Other(code[0])
    ensures Tokens(code) == [first] + Tokens(code[|TokenText(first)|..])
  {
  }

  lemma {:induction false} TokensConcat(a: Text, b: Text)
    requires a == [] || b == [] || !WordUnit(a[|a| - 1]) || !WordUnit(b[0])
    ensures Tokens(a + b) == Tokens(a) + Tokens(b)
    decreases |a|
  {
    if a == [] {
      assert a + b == b;
    } else {
      hide Tokens;
      var n := WordLength(a);
      var k := if n > 0 then n else 1;
      TokensConcat(a[k..], b);
      TokensConcatStep(a, b, k, if n > 0 then Word(a[..n]) else Other(a[0]));
    }
  }

  lemma TokensConcatStep(a: Text, b: Text, k: nat, first: Token)
    requires a != [] && (b == [] || !WordUnit(a[|a| - 1]) || !WordUnit(b[0]))
    requires first == if WordLength(a) > 0 then Word(a[..WordLength(a)]) else Other(a[0])
    requires k == |TokenText(first)| && Tokens(a[k..] + b) == Tokens(a[k..]) + Tokens(b)
    ensures Tokens(a + b) == Tokens(a) + Tokens(b)
  {
    hide Tokens, WordLength, WordUnit;
    SameHead(a, b, k, first);
    TokensHead(a + b, first);
    TokensHead(a, first);
    Strings.Concat3([first], Tokens(a[k..]), Tokens(b));
  }

  /** The first token of a is the first of a and b where they meet between words. */
  lemma SameHead(a: Text, b: Text, k: nat, first: Token)
    requires a != [] && (b == [] || !WordUnit(a[|a| - 1]) || !WordUnit(b[0]))
    requires first == if WordLength(a) > 0 then Word(a[..WordLength(a)]) else Other(a[0])
    requires k == |TokenText(first)|
    ensures var t := a + b;
            first == (if WordLength(t) > 0 then Word(t[..WordLength(t)]) else Other(t[0])) && t[k..] == a[k..] + b
  {
    hide WordUnit, WordLength;
    WordLengthConcat(a, b);
    Strings.SplitConcat(a, b, k);
  }

  lemma {:induction false} PaintConcat(a: seq<Token>, b: seq<Token>)
    ensures PaintAll(a + b) == PaintAll(a) + PaintAll(b)
  {
    hide Paint;
    if a == [] {
      assert a + b == b;
    } else {
      assert (a + b)[1..] == a[1..] + b;
      PaintConcat(a[1..], b);
      Strings.Concat3(Paint(a[0]), PaintAll(a[1..]), PaintAll(b));
    }
  }

  /** Code painted so far, then one more word or one more unit of another kind. */
  lemma PaintNext(code: Text, start: nat, end: nat)
    requires start < end <= |code|
    requires start == 0 || !WordUnit(code[start - 1]) || !WordUnit(code[start])
    requires (forall k :: start <= k < end ==> WordUnit(code[k])) || end == start + 1
    ensures PaintCode(code[..end]) == PaintCode(code[..start]) + Paint(
        if WordUnit(code[start]) then Word(code[start..end]) else Other(code[start]))
  {
    var before, next := code[..start], code[start..end];
    var token := if WordUnit(code[start]) then Word(next) else Other(code[start]);
    hide Tokens, Paint, PaintAll, WordLength, WordUnit;
    assert forall k :: 0 <= k < |next| ==> next[k] == code[start + k];
    SingleToken(next, token);
    Strings.SliceConcat(code, start, end);
    assert before == [] || before[|before| - 1] == code[start - 1];
    TokensConcat(before, next);
    PaintConcat(Tokens(before), [token]);
  }

  lemma SingleToken(next: Text, token: Token)
    requires next != [] && ((forall k :: 0 <= k < |next| ==> WordUnit(next[k])) || |next| == 1)
    requires token == if WordUnit(next[0]) then Word(next) else Other(next[0])
    ensures Tokens(next) == [token] && PaintAll([token]) == Paint(token)
  {
    hide Paint;
    if WordUnit(next[0]) {
      assert WordLength(next) == |next|;
      assert next[..|next|] == next && next[|next|..] == [];
    } else {
      assert next[1..] == [];
    }
    assert PaintAll([token]) == Paint(token) + PaintAll([]);
  }

  /** What has been written once code is painted as far as end. */
  ghost predicate Painted(written: Text, before: Text, code: Text, end: nat) {
    end <= |code| && written == before + PaintCode(code[..end])
  }

  lemma PaintedNext(written: Text, before: Text, code: Text, i: nat)
    requires i < |code| && Painted(written, before, code, i) && !WordUnit(code[i])
    ensures Painted(written + [Written(code[i])], before, code, i + 1)
  {
    PaintNext(code, i, i + 1);
    Strings.Concat3(before, PaintCode(code[..i]), Paint(Other(code[i])));
  }

  lemma PaintedNone(before: Text, code: Text)
    ensures Painted(before, before, code, 0)
  {
    assert code[..0] == [] && before + [] == before;
  }

  /** Whether a word is being read: it began at start, and is all word units so far. */
  ghost predicate Reading(code: Text, start: int, i: nat) {
    && start < i <= |code|
    && (start >= 0 ==> forall k :: start <= k < i ==> WordUnit(code[k]))
    && (start > 0 ==> !WordUnit(code[start - 1]))
    && (start < 0 && i > 0 ==> !WordUnit(code[i - 1]))
  }

  /** Writes code with each whole-word keyword bold: start is where the word being read
      began, or -1 between words. */
  method SqlCode(b: Builder, code: Text)
    modifies b
    ensures b.text == old(b.text) + PaintCode(code)
  {
    hide Tokens, PaintAll, WordLength, Keyword;
    var start := -1;
    var i := 0;
    ghost var before := b.text;
    PaintedNone(before, code);
    while i < |code|
      invariant i <= |code| && Reading(code, start, i)
      invariant start < 0 ==> Painted(b.text, before, code, i)
      invariant start >= 0 ==> Painted(b.text, before, code, start)
    {
      if WordUnit(code[i]) {
        if start < 0 {
          start := i;
        }
      } else {
        start := Flush(b, code, start, i, before);
        PaintedNext(b.text, before, code, i);
        b.WriteString([Written(code[i])]);
      }
      i := i + 1;
    }
    start := Flush(b, code, start, |code|, before);
    assert code[..|code|] == code;
  }

  /** Writes the word that began at start, if one did, and answers that none is begun. */
  method Flush(b: Builder, code: Text, start: int, end: nat, ghost before: Text) returns (none: int)
    requires end <= |code| && (start >= 0 ==> Reading(code, start, end))
    requires Painted(b.text, before, code, if start < 0 then end else start)
    modifies b
    ensures none == -1 && Painted(b.text, before, code, end)
  {
    if start >= 0 {
      var word := code[start..end];
      PaintNext(code, start, end);
      Strings.Concat3(before, PaintCode(code[..start]), Paint(Word(word)));
      if Keyword(word) {
        b.WriteString(Bold(word));
      } else {
        b.WriteString(word);
      }
    }
    none := -1;
  }

  lemma {:induction false} NoCloseLater(line: Text, from: nat, to: nat)
    requires from <= to <= |line| && Index(line[from..], CLOSE) < 0
    ensures Index(line[to..], CLOSE) < 0
  {
    if Index(line[to..], CLOSE) >= 0 {
      AtLater(line, to, CLOSE);
      AtLater(line, from, CLOSE);
      assert false;
    }
  }

  /** With no marker to take first, code runs to the comment, or to the end. */
  lemma CodeToComment(line: Text)
    requires var comment, open := Index(line, COMMENT), Index(line, OPEN);
             open < 0 || Index(line[open..], CLOSE) < 0 || 0 <= comment < open
    ensures var n := if Index(line, COMMENT) < 0 then |line| else Index(line, COMMENT);
            Unsplit(line, n) && (n < |line| ==> Splits(line, n))
  {
    var open := Index(line, OPEN);
    var n := if Index(line, COMMENT) < 0 then |line| else Index(line, COMMENT);
    forall k: nat | k < n
      ensures !Splits(line, k)
    {
      if At(line, k, OPEN) {
        assert open >= 0 && open <= k;
        NoCloseLater(line, open, k);
      }
    }
  }

  /** With a closed marker before any comment, code runs to the marker. */
  lemma CodeToMarker(line: Text)
    requires var comment, open := Index(line, COMMENT), Index(line, OPEN);
             open >= 0 && Index(line[open..], CLOSE) >= 0 && !(0 <= comment < open)
    ensures Unsplit(line, Index(line, OPEN)) && Splits(line, Index(line, OPEN))
    ensures var open := Index(line, OPEN);
            At(line[open..], 0, OPEN) && !At(line[open..], 0, COMMENT)
  {
    var open := Index(line, OPEN);
    AtLater(line, open, OPEN);
    assert At(line[open..], 0, OPEN);
    assert line[open..][0..2][0] == OPEN[0];
    forall k: nat | k < open
      ensures !Splits(line, k)
    {
      assert !At(line, k, OPEN) && !At(line, k, COMMENT);
    }
  }

  lemma PaintCodeThen(text: Text, tail: seq<Span>)
    ensures PaintSpans((if |text| > 0 then [Code(text)] else []) + tail) == PaintCode(text) + PaintSpans(tail)
  {
    if |text| > 0 {
      assert ([Code(text)] + tail)[1..] == tail;
    } else {
      assert [] + tail == tail;
    }
  }

  ghost predicate NoMarkerFirst(line: Text) {
    var comment, open := Index(line, COMMENT), Index(line, OPEN);
    open < 0 || Index(line[open..], CLOSE) < 0 || 0 <= comment < open
  }

  lemma PaintToEnd(line: Text)
    requires NoMarkerFirst(line) && Index(line, COMMENT) < 0
    ensures PaintSpans(Spans(line)) == PaintCode(line)
  {
    CodeToComment(line);
    CodeRun(line, |line|);
    assert line[..|line|] == line && line[|line|..] == [];
    PaintCodeThen(line, []);
    assert PaintCode(line) + [] == PaintCode(line);
  }

  lemma PaintToComment(line: Text)
    requires NoMarkerFirst(line) && Index(line, COMMENT) >= 0
    ensures var n := Index(line, COMMENT);
            PaintSpans(Spans(line)) == PaintCode(line[..n]) + Dim(line[n..])
  {
    var n := Index(line, COMMENT);
    CodeToComment(line);
    CodeRun(line, n);
    AtLater(line, n, COMMENT);
    assert At(line[n..], 0, COMMENT);
    assert Spans(line[n..]) == [Comment(line[n..])];
    PaintCodeThen(line[..n], Spans(line[n..]));
    PaintLast(Comment(line[n..]));
  }

  lemma PaintLast(s: Span)
    ensures PaintSpans([s]) == PaintSpan(s)
  {
    assert PaintSpans([s]) == PaintSpan(s) + PaintSpans([]);
  }

  lemma PaintToMarker(line: Text, open: nat, end: nat)
    requires !NoMarkerFirst(line)
    requires open == Index(line, OPEN) && end == open + Index(line[open..], CLOSE) + |CLOSE| <= |line|
    ensures PaintSpans(Spans(line)) == PaintCode(line[..open]) + PaintSpans(Spans(line[open..]))
    ensures PaintSpans(Spans(line[open..])) == Value(line[open..end]) + PaintSpans(Spans(line[end..]))
  {
    hide PaintCode, Spans, PaintSpans, Splits, At, Unsplit, Index;
    CodeToMarker(line);
    hide NoMarkerFirst;
    CodeRun(line, open);
    PaintCodeThen(line[..open], Spans(line[open..]));
    PaintMarker(line, open, end);
  }

  lemma PaintMarker(line: Text, open: nat, end: nat)
    requires !NoMarkerFirst(line)
    requires open == Index(line, OPEN) && end == open + Index(line[open..], CLOSE) + |CLOSE| <= |line|
    ensures PaintSpans(Spans(line[open..])) == Value(line[open..end]) + PaintSpans(Spans(line[end..]))
  {
    hide PaintCode, Spans, PaintSpans, Splits, At, Unsplit;
    CodeToMarker(line);
    hide NoMarkerFirst;
    MarkerSpan(line[open..]);
    Strings.SliceOfRest(line, open, end - open);
    PaintFirst(Marker(line[open..end]), Spans(line[end..]));
  }

  lemma MarkerSpan(line: Text)
    requires At(line, 0, OPEN) && !At(line, 0, COMMENT) && Index(line, CLOSE) >= 0
    ensures var end := Index(line, CLOSE) + |CLOSE|;
            Spans(line) == [Marker(line[..end])] + Spans(line[end..])
  {
  }

  lemma PaintFirst(s: Span, tail: seq<Span>)
    ensures PaintSpans([s] + tail) == PaintSpan(s) + PaintSpans(tail)
  {
    assert ([s] + tail)[1..] == tail;
  }

  /** Code and a marker written ahead of what is left still leave the same line. */
  lemma Advance(written: Text, line: Text, open: nat, end: nat)
    requires !NoMarkerFirst(line)
    requires open == Index(line, OPEN) && end == open + Index(line[open..], CLOSE) + |CLOSE| <= |line|
    ensures written + PaintCode(line[..open]) + Value(line[open..end]) + PaintSpans(Spans(line[end..]))
         == written + PaintSpans(Spans(line))
  {
    var code, marker, tail := PaintCode(line[..open]), Value(line[open..end]), PaintSpans(Spans(line[end..]));
    PaintToMarker(line, open, end);
    Strings.Concat3(written + code, marker, tail);
    Strings.Concat3(written, code, marker + tail);
  }

  /** Writes one line of the colouring: it slices the line at the next comment or closed
      marker until nothing is left. */
  method SqlLine(b: Builder, line: Text)
    modifies b
    ensures b.text == old(b.text) + PaintLine(line)
  {
    ghost var whole := b.text + PaintLine(line);
    if At(TrimLeft(line), 0, COMMENT) {
      b.WriteString(Dim(line));
      PaintLast(Comment(line));
      return;
    }
    var rest := line;
    while rest != []
      invariant b.text + PaintSpans(Spans(rest)) == whole
      decreases |rest|
    {
      var comment := Index(rest, COMMENT);
      var open, end := Index(rest, OPEN), -1;
      if open >= 0 {
        end := Index(rest[open..], CLOSE);
      }
      if open < 0 || end < 0 || (comment >= 0 && comment < open) {
        if comment < 0 {
          PaintToEnd(rest);
          SqlCode(b, rest);
          return;
        }
        PaintToComment(rest);
        Strings.Concat3(b.text, PaintCode(rest[..comment]), Dim(rest[comment..]));
        SqlCode(b, rest[..comment]);
        b.WriteString(Dim(rest[comment..]));
        return;
      }
      end := end + open + |CLOSE|;
      Advance(b.text, rest, open, end);
      SqlCode(b, rest[..open]);
      b.WriteString(Value(rest[open..end]));
      rest := rest[end..];
    }
    assert b.text + [] == b.text;
  }

  /** Colours a statement's text line by line; with colour off, the text itself. */
  method SQL(on: bool, text: Text) returns (coloured: Text)
    ensures coloured == if on then PaintText(text) else text
  {
    if !on {
      return text;
    }
    var b := new Builder();
    SqlLines(b, Strings.Split(text, NEWLINE));
    return b.text;
  }

  method SqlLines(b: Builder, lines: seq<Text>)
    requires b.text == [] && |lines| >= 1
    modifies b
    ensures b.text == PaintJoined(lines)
  {
    hide PaintLine, PaintJoined;
    var i := 0;
    while i < |lines|
      invariant 0 <= i <= |lines|
      invariant if i == 0 then b.text == [] else b.text == PaintJoined(lines[..i])
    {
      PaintJoinedNext(lines, i);
      if i > 0 {
        b.WriteString([NEWLINE]);
      }
      SqlLine(b, lines[i]);
      i := i + 1;
    }
    assert lines[..|lines|] == lines;
  }

  function PaintJoined(lines: seq<Text>): Text
    requires |lines| >= 1
  {
    Strings.Join(PaintLines(lines), NEWLINE)
  }

  lemma PaintJoinedNext(lines: seq<Text>, i: nat)
    requires i < |lines|
    ensures i == 0 ==> PaintJoined(lines[..1]) == [] + PaintLine(lines[0])
    ensures i > 0 ==> PaintJoined(lines[..i + 1]) == PaintJoined(lines[..i]) + [NEWLINE] + PaintLine(lines[i])
  {
    hide PaintLine;
    var last := PaintLine(lines[i]);
    assert PaintLines(lines[..i + 1]) == PaintLines(lines[..i]) + [last];
    if i > 0 {
      Strings.JoinAppend(PaintLines(lines[..i]), last, NEWLINE);
    } else {
      assert PaintLines(lines[..1]) == [last];
      assert [] + last == last;
    }
  }
}
