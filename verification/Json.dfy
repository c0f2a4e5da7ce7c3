/** The JSON colourer: object keys in one colour, string and number values in another. It
    walks a tokenizer's tokens, keeping a stack of the open containers, and takes each
    token's literal from the text. The tokenizer is a library: what it answers for a text
    is a parameter, its tokens with the offset each ends at, then its end or its error. */
module Json {
  import opened Ansi
  import Strings

  datatype Token = Delim(c: char) | Str | Num | Lit
  datatype Lexeme = Lexeme(token: Token, end: nat)
  datatype Reading = Reading(lexemes: seq<Lexeme>, failed: bool)

  /** A tokenizer's offsets never go back and never pass the end of the text. */
  ghost predicate Monotone(text: Text, pos: nat, lexemes: seq<Lexeme>)
    decreases |lexemes|
  {
    pos <= |text| && (lexemes == [] || (pos <= lexemes[0].end && Monotone(text, lexemes[0].end, lexemes[1..])))
  }

  /** What an open container expects next; an array never wants a key. */
  datatype Frame = Frame(isObject: bool, wantKey: bool)
  type Stack = seq<Frame>

  datatype Role = KeyRole | ValueRole | PlainRole

  predicate IsKey(stack: Stack) {
    |stack| > 0 && stack[|stack| - 1].isObject && stack[|stack| - 1].wantKey
  }

  predicate InObject(stack: Stack) {
    |stack| > 0 && stack[|stack| - 1].isObject
  }

  function Want(stack: Stack, key: bool): Stack
    requires InObject(stack)
  {
    stack[|stack| - 1 := stack[|stack| - 1].(wantKey := key)]
  }

  function Closed(stack: Stack): Stack {
    var popped := if |stack| > 0 then stack[..|stack| - 1] else stack;
    if InObject(popped) then Want(popped, true) else popped
  }

  function Advance(stack: Stack, token: Token): Stack {
    match token
    case Delim('{') => stack + [Frame(true, true)]
    case Delim('[') => stack + [Frame(false, false)]
    case Delim('}') => Closed(stack)
    case Delim(']') => Closed(stack)
    case Delim(_) => stack
    case _ => if InObject(stack) then Want(stack, !stack[|stack| - 1].wantKey) else stack
  }

  function RoleOf(stack: Stack, token: Token): Role {
    match token
    case Delim(_) => PlainRole
    case Lit => PlainRole
    case Num => ValueRole
    case Str => if IsKey(stack) then KeyRole else ValueRole
  }

  function StackAfter(stack: Stack, tokens: seq<Token>): Stack
    decreases |tokens|
  {
    if tokens == [] then stack else StackAfter(Advance(stack, tokens[0]), tokens[1..])
  }

  function Roles(stack: Stack, tokens: seq<Token>): (roles: seq<Role>)
    ensures |roles| == |tokens|
    decreases |tokens|
  {
    if tokens == [] then [] else [RoleOf(stack, tokens[0])] + Roles(Advance(stack, tokens[0]), tokens[1..])
  }

  function TokensOf(lexemes: seq<Lexeme>): (tokens: seq<Token>)
    ensures |tokens| == |lexemes|
  {
    seq(|lexemes|, i requires 0 <= i < |lexemes| => lexemes[i].token)
  }

  // ---- The colouring, given each token's role ----

  predicate Gap(u: Unit) {
    u in {Rune(' '), Rune('\t'), Rune('\r'), Rune('\n'), Rune(':'), Rune(',')}
  }

  /** Where the literal that ends at end begins, after the gap from pos. */
  function LiteralStart(text: Text, pos: nat, end: nat): (start: nat)
    requires pos <= end <= |text|
    ensures pos <= start <= end
    ensures forall i :: pos <= i < start ==> Gap(text[i])
    ensures start < end ==> !Gap(text[start])
    decreases end - pos
  {
    if pos < end && Gap(text[pos]) then LiteralStart(text, pos + 1, end) else pos
  }

  function Paint(role: Role, literal: Text): Text {
    match role
    case KeyRole => Key(literal)
    case ValueRole => Value(literal)
    case PlainRole => literal
  }

  /** Every token ends past the gap before it. */
  ghost predicate Literals(text: Text, pos: nat, lexemes: seq<Lexeme>)
    requires Monotone(text, pos, lexemes)
    decreases |lexemes|
  {
    lexemes == [] ||
    (LiteralStart(text, pos, EndOf(text, pos, lexemes)) < lexemes[0].end && Literals(text, lexemes[0].end, lexemes[1..]))
  }

  ghost function EndOf(text: Text, pos: nat, lexemes: seq<Lexeme>): (end: nat)
    requires Monotone(text, pos, lexemes) && lexemes != []
    ensures end == lexemes[0].end && pos <= end <= |text|
  {
    assert Monotone(text, lexemes[0].end, lexemes[1..]);
    lexemes[0].end
  }

  /** The text from pos with each literal painted by its role and every gap as it was. */
  ghost function Weave(text: Text, pos: nat, lexemes: seq<Lexeme>, roles: seq<Role>): Text
    requires Monotone(text, pos, lexemes) && |roles| == |lexemes|
    decreases |lexemes|
  {
    if lexemes == [] then text[pos..]
    else
      var end := EndOf(text, pos, lexemes);
      var start := LiteralStart(text, pos, end);
      text[pos..start] + Paint(roles[0], text[start..end]) + Weave(text, end, lexemes[1..], roles[1..])
  }

  /** A text is coloured only when it tokenizes to its end with no container left open. */
  ghost predicate Accepted(text: Text, reading: Reading)
    requires Monotone(text, 0, reading.lexemes)
  {
    && !reading.failed
    && StackAfter([], TokensOf(reading.lexemes)) == []
    && Literals(text, 0, reading.lexemes)
  }

  ghost function Coloured(text: Text, reading: Reading): Text
    requires Monotone(text, 0, reading.lexemes)
  {
    if Accepted(text, reading) then Weave(text, 0, reading.lexemes, Roles([], TokensOf(reading.lexemes)))
    else text
  }

  // ---- The colourer ----

  /** What is left to do: the rest of the weave, and whether the rest is accepted. */
  ghost predicate Pending(text: Text, reading: Reading, k: nat, pos: nat, stack: Stack, written: Text)
    requires Monotone(text, 0, reading.lexemes)
  {
    && k <= |reading.lexemes|
    && Monotone(text, pos, reading.lexemes[k..])
    && var rest := reading.lexemes[k..];
       var tokens := TokensOf(rest);
       && (Accepted(text, reading) <==> !reading.failed && StackAfter(stack, tokens) == [] && Literals(text, pos, rest))
       && (Accepted(text, reading) ==> written + Weave(text, pos, rest, Roles(stack, tokens)) == Coloured(text, reading))
  }

  lemma PendingNext(text: Text, reading: Reading, k: nat, pos: nat, stack: Stack, written: Text)
    requires Monotone(text, 0, reading.lexemes)
    requires Pending(text, reading, k, pos, stack, written) && k < |reading.lexemes|
    ensures var lexeme := reading.lexemes[k];
            pos <= lexeme.end <= |text| &&
            var start := LiteralStart(text, pos, lexeme.end);
            && (start >= lexeme.end ==> !Accepted(text, reading))
            && (start < lexeme.end ==> Pending(text, reading, k + 1, lexeme.end, Advance(stack, lexeme.token),
                  written + text[pos..start] + Paint(RoleOf(stack, lexeme.token), text[start..lexeme.end])))
  {
    var rest := reading.lexemes[k..];
    var lexeme := rest[0];
    assert rest[1..] == reading.lexemes[k + 1..] && lexeme == reading.lexemes[k];
    assert TokensOf(rest)[1..] == TokensOf(rest[1..]) && TokensOf(rest)[0] == lexeme.token;
    assert EndOf(text, pos, rest) == lexeme.end;
    var start := LiteralStart(text, pos, lexeme.end);
    var roles := Roles(stack, TokensOf(rest));
    assert roles[0] == RoleOf(stack, lexeme.token);
    assert roles[1..] == Roles(Advance(stack, lexeme.token), TokensOf(rest[1..]));
    if start < lexeme.end && Accepted(text, reading) {
      var gap, literal := text[pos..start], Paint(roles[0], text[start..lexeme.end]);
      var tail := Weave(text, lexeme.end, rest[1..], roles[1..]);
      Strings.Concat3(written, gap + literal, tail);
      Strings.Concat3(written, gap, literal);
    }
  }

  /** Colours an indented JSON text, or answers it unchanged: with colour off, and when it
      does not tokenize to its end or ends inside a container. */
  /** Passes over the gap before a token. */
  method SkipGap(text: Text, pos: nat, end: nat) returns (startTok: nat)
    requires pos <= end <= |text|
    ensures startTok == LiteralStart(text, pos, end)
  {
    startTok := pos;
    while startTok < end && Gap(text[startTok])
      invariant pos <= startTok <= end && LiteralStart(text, pos, end) == LiteralStart(text, startTok, end)
    {
      startTok := startTok + 1;
    }
  }

  method JSON(on: bool, text: Text, reading: Reading) returns (coloured: Text)
    requires Monotone(text, 0, reading.lexemes)
    ensures coloured == if on then Coloured(text, reading) else text
  {
    if !on {
      return text;
    }
    hide Pending, Weave, Literals, Accepted, Coloured, Roles, StackAfter, Monotone, LiteralStart, TokensOf;
    var b: Text := [];
    var stack: Stack := [];
    var pos, k := 0, 0;
    PendingStart(text, reading);
    while true
      invariant Pending(text, reading, k, pos, stack, b)
      decreases |reading.lexemes| - k
    {
      if k == |reading.lexemes| && !reading.failed && |stack| == 0 {
        break;
      }
      if k == |reading.lexemes| {
        PendingEnd(text, reading, k, pos, stack, b);
        return text;
      }
      PendingNext(text, reading, k, pos, stack, b);
      var token, end := reading.lexemes[k].token, reading.lexemes[k].end;
      var startTok := SkipGap(text, pos, end);
      if startTok >= end {
        PendingEnd(text, reading, k, pos, stack, b);
        return text;
      }
      var lit := text[startTok..end];
      ghost var stack0, b0 := stack, b + text[pos..startTok];
      b := b + text[pos..startTok];
      pos := end;
      var top := |stack| - 1;
      var isKey := top >= 0 && stack[top].isObject && stack[top].wantKey;
      match token {
        case Delim(v) =>
          b := b + lit;
          if v == '{' {
            stack := stack + [Frame(true, true)];
          } else if v == '[' {
            stack := stack + [Frame(false, false)];
          } else if v == '}' || v == ']' {
            if top >= 0 {
              stack := stack[..top];
            }
            var t := |stack| - 1;
            if t >= 0 && stack[t].isObject {
              stack := stack[t := stack[t].(wantKey := true)];
            }
          }
        case _ =>
          if token.Str? {
            b := b + if isKey then Key(lit) else Value(lit);
          } else if token.Num? {
            b := b + Value(lit);
          } else {
            b := b + lit;
          }
          if top >= 0 && stack[top].isObject {
            stack := stack[top := stack[top].(wantKey := !stack[top].wantKey)];
          }
      }
      assert stack == Advance(stack0, token);
      assert b == b0 + Paint(RoleOf(stack0, token), lit);
      k := k + 1;
    }
    PendingEnd(text, reading, k, pos, stack, b);
    b := b + text[pos..];
    return b;
  }

  lemma PendingStart(text: Text, reading: Reading)
    requires Monotone(text, 0, reading.lexemes)
    ensures Pending(text, reading, 0, 0, [], [])
  {
    assert reading.lexemes[0..] == reading.lexemes;
    assert [] + Weave(text, 0, reading.lexemes, Roles([], TokensOf(reading.lexemes)))
        == Weave(text, 0, reading.lexemes, Roles([], TokensOf(reading.lexemes)));
  }

  lemma PendingEnd(text: Text, reading: Reading, k: nat, pos: nat, stack: Stack, written: Text)
    requires Monotone(text, 0, reading.lexemes) && Pending(text, reading, k, pos, stack, written)
    ensures !Accepted(text, reading) ==> Coloured(text, reading) == text
    ensures k == |reading.lexemes| ==> (Accepted(text, reading) <==> !reading.failed && stack == [])
    ensures k == |reading.lexemes| && Accepted(text, reading) ==> written + text[pos..] == Coloured(text, reading)
  {
    if k == |reading.lexemes| {
      assert reading.lexemes[k..] == [] && TokensOf([]) == [];
    }
  }

  // ---- JSON values, as sections 2 to 5 of RFC 8259 build them ----

  datatype Json = Object(members: Members) | Array(items: Items) | String | Number | Literal
  datatype Members = NoMembers | Member(value: Json, rest: Members)
  datatype Items = NoItems | Item(head: Json, tail: Items)

  /** A value's tokens, a member being its name and then its value. */
  function Tokenize(v: Json): seq<Token> {
    match v
    case Object(m) => [Delim('{')] + TokenizeMembers(m) + [Delim('}')]
    case Array(i) => [Delim('[')] + TokenizeItems(i) + [Delim(']')]
    case String => [Str]
    case Number => [Num]
    case Literal => [Lit]
  }

  function TokenizeMembers(m: Members): seq<Token> {
    match m
    case NoMembers => []
    case Member(value, rest) => [Str] + Tokenize(value) + TokenizeMembers(rest)
  }

  function TokenizeItems(i: Items): seq<Token> {
    match i
    case NoItems => []
    case Item(head, tail) => Tokenize(head) + TokenizeItems(tail)
  }

  /** The escape's parameters each token of a value should stand under: 34, blue, for a member's
      name, 32, green, for a string or number anywhere else, and none, plain, for the rest. */
  function Shade(v: Json): seq<Text> {
    match v
    case Object(m) => [[]] + ShadeMembers(m) + [[]]
    case Array(i) => [[]] + ShadeItems(i) + [[]]
    case String => [[Rune('3'), Rune('2')]]
    case Number => [[Rune('3'), Rune('2')]]
    case Literal => [[]]
  }

  function ShadeMembers(m: Members): seq<Text> {
    match m
    case NoMembers => []
    case Member(value, rest) => [[Rune('3'), Rune('4')]] + Shade(value) + ShadeMembers(rest)
  }

  function ShadeItems(i: Items): seq<Text> {
    match i
    case NoItems => []
    case Item(head, tail) => Shade(head) + ShadeItems(tail)
  }

  /** The parameters a role is painted with. */
  function Tint(role: Role): Text {
    match role
    case KeyRole => [Rune('3'), Rune('4')]
    case ValueRole => [Rune('3'), Rune('2')]
    case PlainRole => []
  }

  function Tints(roles: seq<Role>): (tints: seq<Text>)
    ensures |tints| == |roles| && forall i :: 0 <= i < |roles| ==> tints[i] == Tint(roles[i])
  {
    seq(|roles|, i requires 0 <= i < |roles| => Tint(roles[i]))
  }

  lemma TintsConcat(a: seq<Role>, b: seq<Role>)
    ensures Tints(a + b) == Tints(a) + Tints(b)
  {
  }

  lemma {:induction false} RolesConcat(stack: Stack, a: seq<Token>, b: seq<Token>)
    ensures StackAfter(stack, a + b) == StackAfter(StackAfter(stack, a), b)
    ensures Roles(stack, a + b) == Roles(stack, a) + Roles(StackAfter(stack, a), b)
    decreases |a|
  {
    if a == [] {
      assert a + b == b;
      assert [] + Roles(stack, b) == Roles(stack, b);
    } else {
      hide Advance, RoleOf;
      Strings.TailConcat(a, b);
      RolesConcat(Advance(stack, a[0]), a[1..], b);
      Strings.Concat3([RoleOf(stack, a[0])], Roles(Advance(stack, a[0]), a[1..]), Roles(StackAfter(stack, a), b));
    }
  }

  lemma RolesOne(stack: Stack, token: Token)
    ensures StackAfter(stack, [token]) == Advance(stack, token)
    ensures Roles(stack, [token]) == [RoleOf(stack, token)]
  {
    hide Advance, RoleOf;
    assert [token][1..] == [];
  }

  /** The stack once a value has been read where a value was due. */
  function AfterValue(stack: Stack): Stack {
    if InObject(stack) then Want(stack, true) else stack
  }

  /** At any depth, a value read where a value is due is coloured as its structure says. */
  lemma {:induction false} ValueColours(v: Json, stack: Stack)
    requires !IsKey(stack)
    ensures Tints(Roles(stack, Tokenize(v))) == Shade(v)
    ensures StackAfter(stack, Tokenize(v)) == AfterValue(stack)
  {
    match v
    case Object(m) =>
      var inside := stack + [Frame(true, true)];
      Bracketed(stack, Delim('{'), TokenizeMembers(m), Delim('}'));
      MembersColours(m, inside);
      assert inside[..|inside| - 1] == stack;
    case Array(i) =>
      var inside := stack + [Frame(false, false)];
      Bracketed(stack, Delim('['), TokenizeItems(i), Delim(']'));
      ItemsColours(i, inside);
      assert inside[..|inside| - 1] == stack;
    case String => RolesOne(stack, Str);
    case Number => RolesOne(stack, Num);
    case Literal => RolesOne(stack, Lit);
  }

  lemma Bracketed(stack: Stack, open: Token, inner: seq<Token>, close: Token)
    ensures var s1 := Advance(stack, open);
            var s2 := StackAfter(s1, inner);
            && StackAfter(stack, [open] + inner + [close]) == Advance(s2, close)
            && Tints(Roles(stack, [open] + inner + [close])) == [Tint(RoleOf(stack, open))] + Tints(Roles(s1, inner)) + [Tint(RoleOf(s2, close))]
  {
    hide Advance, RoleOf, Roles, StackAfter, Tint;
    RolesConcat(stack, [open] + inner, [close]);
    RolesConcat(stack, [open], inner);
    RolesOne(stack, open);
    RolesOne(StackAfter(Advance(stack, open), inner), close);
  }

  lemma {:induction false} MembersColours(m: Members, stack: Stack)
    requires IsKey(stack)
    ensures Tints(Roles(stack, TokenizeMembers(m))) == ShadeMembers(m)
    ensures StackAfter(stack, TokenizeMembers(m)) == stack
  {
    match m
    case NoMembers =>
    case Member(value, rest) =>
      var named := Want(stack, false);
      assert Want(named, true) == stack;
      RolesOne(stack, Str);
      ValueColours(value, named);
      MembersColours(rest, stack);
      hide Roles, StackAfter;
      RolesConcat(stack, [Str] + Tokenize(value), TokenizeMembers(rest));
      RolesConcat(stack, [Str], Tokenize(value));
      TintsConcat(Roles(stack, [Str]), Roles(named, Tokenize(value)));
      TintsConcat(Roles(stack, [Str]) + Roles(named, Tokenize(value)), Roles(stack, TokenizeMembers(rest)));
  }

  lemma {:induction false} ItemsColours(i: Items, stack: Stack)
    requires !InObject(stack)
    ensures Tints(Roles(stack, TokenizeItems(i))) == ShadeItems(i)
    ensures StackAfter(stack, TokenizeItems(i)) == stack
  {
    match i
    case NoItems =>
    case Item(head, tail) =>
      ValueColours(head, stack);
      ItemsColours(tail, stack);
      hide Roles, StackAfter;
      RolesConcat(stack, Tokenize(head), TokenizeItems(tail));
      TintsConcat(Roles(stack, Tokenize(head)), Roles(stack, TokenizeItems(tail)));
  }

  /** A text that tokenizes as JSON values, one after another, is accepted, and each string
      in it takes the key colour exactly when it is an object member's name. */
  lemma DocumentColours(text: Text, reading: Reading, values: Items)
    requires Monotone(text, 0, reading.lexemes) && Literals(text, 0, reading.lexemes)
    requires !reading.failed && TokensOf(reading.lexemes) == TokenizeItems(values)
    ensures Tints(Roles([], TokensOf(reading.lexemes))) == ShadeItems(values)
    ensures Coloured(text, reading) == Weave(text, 0, reading.lexemes, Roles([], TokensOf(reading.lexemes)))
  {
    ItemsColours(values, []);
  }

  // ---- Texts that break partway ----

  /** How many containers the tokens open past those they close. */
  function Depth(tokens: seq<Token>): int {
    if tokens == [] then 0
    else Depth(tokens[..|tokens| - 1])
         + match tokens[|tokens| - 1]
           case Delim('{') => 1
           case Delim('[') => 1
           case Delim('}') => -1
           case Delim(']') => -1
           case _ => 0
  }

  /** The tokens close no container they have not opened. */
  ghost predicate Nests(tokens: seq<Token>) {
    forall k :: 0 <= k <= |tokens| ==> Depth(tokens[..k]) >= 0
  }

  lemma DepthNext(tokens: seq<Token>, k: nat)
    requires k < |tokens|
    ensures Depth(tokens[..k + 1]) == Depth(tokens[..k] + [tokens[k]])
    ensures var stack := StackAfter([], tokens[..k]);
            StackAfter([], tokens[..k + 1]) == Advance(stack, tokens[k])
  {
    hide Advance, Depth, StackAfter, Roles;
    assert tokens[..k + 1] == tokens[..k] + [tokens[k]];
    RolesConcat([], tokens[..k], [tokens[k]]);
    RolesOne(StackAfter([], tokens[..k]), tokens[k]);
  }

  lemma AdvanceDepth(stack: Stack, before: seq<Token>, token: Token)
    requires |stack| == Depth(before) && Depth(before + [token]) >= 0
    ensures |Advance(stack, token)| == Depth(before + [token])
  {
    assert (before + [token])[..|before|] == before;
  }

  lemma {:induction false} StackIsDepth(tokens: seq<Token>, k: nat)
    requires Nests(tokens) && k <= |tokens|
    ensures |StackAfter([], tokens[..k])| == Depth(tokens[..k])
    decreases k
  {
    if k > 0 {
      StackIsDepth(tokens, k - 1);
      assert Depth(tokens[..k]) >= 0;
      hide Advance, Depth, StackAfter, Nests;
      DepthNext(tokens, k - 1);
      AdvanceDepth(StackAfter([], tokens[..k - 1]), tokens[..k - 1], tokens[k - 1]);
    }
  }

  /** A text the tokenizer fails on, one whose last token leaves a container open, and one with a
      token that is all gap is answered as it came; and every other text is coloured. */
  lemma BreakIsUnchanged(text: Text, reading: Reading)
    requires Monotone(text, 0, reading.lexemes) && Nests(TokensOf(reading.lexemes))
    ensures reading.failed || Depth(TokensOf(reading.lexemes)) > 0 || !Literals(text, 0, reading.lexemes) ==> Coloured(text, reading) == text
    ensures !reading.failed && Depth(TokensOf(reading.lexemes)) == 0 && Literals(text, 0, reading.lexemes) ==> Accepted(text, reading)
  {
    var tokens := TokensOf(reading.lexemes);
    StackIsDepth(tokens, |tokens|);
    assert tokens[..|tokens|] == tokens;
  }

  // ---- Erasure ----

  /** What stripping the weave leaves: each run of text between two colours stripped alone,
      run being what has been read since the last. */
  ghost function Shown(text: Text, run: Text, pos: nat, lexemes: seq<Lexeme>, roles: seq<Role>): Text
    requires Monotone(text, pos, lexemes) && |roles| == |lexemes|
    decreases |lexemes|
  {
    if lexemes == [] then Strip(run + text[pos..])
    else
      var end := EndOf(text, pos, lexemes);
      var start := LiteralStart(text, pos, end);
      if roles[0] == PlainRole || start == end then Shown(text, run + text[pos..end], end, lexemes[1..], roles[1..])
      else Strip(run + text[pos..start]) + Strip(text[start..end]) + Shown(text, [], end, lexemes[1..], roles[1..])
  }

  /** No run between two colours holds an escape whole. */
  ghost predicate NoEscapes(text: Text, run: Text, pos: nat, lexemes: seq<Lexeme>, roles: seq<Role>)
    requires Monotone(text, pos, lexemes) && |roles| == |lexemes|
    decreases |lexemes|
  {
    if lexemes == [] then Strip(run + text[pos..]) == run + text[pos..]
    else
      var end := EndOf(text, pos, lexemes);
      var start := LiteralStart(text, pos, end);
      if roles[0] == PlainRole || start == end then NoEscapes(text, run + text[pos..end], end, lexemes[1..], roles[1..])
      else
        && Strip(run + text[pos..start]) == run + text[pos..start] && Strip(text[start..end]) == text[start..end]
        && NoEscapes(text, [], end, lexemes[1..], roles[1..])
  }

  lemma ScanRun(out: Text, run: Text, more: Text)
    ensures Scan(Scan(Scanner(out, []), run), more) == Scan(Scanner(out, []), run + more)
    ensures Scan(Scan(Scanner(out, []), run), more).Flush() == out + Strip(run + more)
  {
    ScanConcat(Scanner(out, []), run, more);
    ScanIsStrip(Scanner(out, []), run + more);
    assert [] + (run + more) == run + more;
  }

  lemma ScanPainted(s: Scanner, role: Role, literal: Text)
    requires role != PlainRole && literal != []
    ensures Scan(s, Paint(role, literal)) == Scanner(s.Flush() + Strip(literal), [])
  {
    hide Scan, Strip;
    var code := if role == KeyRole then BLUE else GREEN;
    ScanConcat(s, code + literal, RESET);
    ScanConcat(s, code, literal);
    ScanCode(s, code);
    ScanIsStrip(Scanner(s.Flush(), []), literal);
    assert [] + literal == literal;
    ScanCode(Scan(Scanner(s.Flush(), []), literal), RESET);
  }

  lemma {:induction false} WeaveShows(text: Text, out: Text, run: Text, pos: nat, lexemes: seq<Lexeme>,
          roles: seq<Role>)
    requires Monotone(text, pos, lexemes) && |roles| == |lexemes|
    ensures Scan(Scan(Scanner(out, []), run), Weave(text, pos, lexemes, roles)).Flush() == out + Shown(text, run, pos, lexemes, roles)
    decreases |lexemes|
  {
    if lexemes == [] {
      ScanRun(out, run, text[pos..]);
    } else {
      hide Scan, Strip;
      var end := EndOf(text, pos, lexemes);
      var start := LiteralStart(text, pos, end);
      var s := Scan(Scanner(out, []), run);
      var gap, literal, rest := text[pos..start], text[start..end], Weave(text, end, lexemes[1..], roles[1..]);
      assert gap + literal == text[pos..end];
      if roles[0] == PlainRole || start == end {
        assert Weave(text, pos, lexemes, roles) == text[pos..end] + rest;
        ScanConcat(s, text[pos..end], rest);
        ScanRun(out, run, text[pos..end]);
        WeaveShows(text, out, run + text[pos..end], end, lexemes[1..], roles[1..]);
      } else {
        var shown := out + Strip(run + gap) + Strip(literal);
        ScanConcat(s, gap + Paint(roles[0], literal), rest);
        ScanConcat(s, gap, Paint(roles[0], literal));
        ScanRun(out, run, gap);
        ScanPainted(Scan(s, gap), roles[0], literal);
        ScanNothing(shown);
        WeaveShows(text, shown, [], end, lexemes[1..], roles[1..]);
        var tail := Shown(text, [], end, lexemes[1..], roles[1..]);
        Strings.Concat3(out + Strip(run + gap), Strip(literal), tail);
        Strings.Concat3(out, Strip(run + gap), Strip(literal) + tail);
        Strings.Concat3(Strip(run + gap), Strip(literal), tail);
      }
    }
  }

  lemma ScanNothing(out: Text)
    ensures Scan(Scanner(out, []), []) == Scanner(out, [])
  {
  }

  lemma PaintedStep(text: Text, run: Text, pos: nat, lexemes: seq<Lexeme>, roles: seq<Role>)
    requires Monotone(text, pos, lexemes) && |roles| == |lexemes| > 0
    ensures var end := EndOf(text, pos, lexemes);
            var start := LiteralStart(text, pos, end);
            if roles[0] == PlainRole || start == end then
              && Shown(text, run, pos, lexemes, roles) == Shown(text, run + text[pos..end], end, lexemes[1..], roles[1..])
              && NoEscapes(text, run, pos, lexemes, roles) == NoEscapes(text, run + text[pos..end], end, lexemes[1..], roles[1..])
            else
              && Shown(text, run, pos, lexemes, roles)
                 == Strip(run + text[pos..start]) + Strip(text[start..end]) + Shown(text, [], end, lexemes[1..], roles[1..])
              && (NoEscapes(text, run, pos, lexemes, roles) <==>
                  && Strip(run + text[pos..start]) == run + text[pos..start] && Strip(text[start..end]) == text[start..end]
                  && NoEscapes(text, [], end, lexemes[1..], roles[1..]))
  {
    hide Strip;
  }

  /** What is shown is the whole text exactly when no run holds an escape. */
  lemma {:induction false} ShownIsWhole(text: Text, run: Text, pos: nat, lexemes: seq<Lexeme>, roles: seq<Role>)
    requires Monotone(text, pos, lexemes) && |roles| == |lexemes|
    ensures |Shown(text, run, pos, lexemes, roles)| <= |run| + |text| - pos
    ensures Shown(text, run, pos, lexemes, roles) == run + text[pos..] <==> NoEscapes(text, run, pos, lexemes, roles)
    decreases |lexemes|
  {
    hide Strip;
    if lexemes == [] {
      StripShortens(run + text[pos..]);
    } else {
      var end := EndOf(text, pos, lexemes);
      var start := LiteralStart(text, pos, end);
      PaintedStep(text, run, pos, lexemes, roles);
      hide Shown, NoEscapes;
      TailConcat(text, pos, start, end);
      if roles[0] == PlainRole || start == end {
        ShownIsWhole(text, run + text[pos..end], end, lexemes[1..], roles[1..]);
        Strings.Concat3(run, text[pos..end], text[end..]);
      } else {
        var a, b, c := run + text[pos..start], text[start..end], text[end..];
        StripShortens(a);
        StripShortens(b);
        ShownIsWhole(text, [], end, lexemes[1..], roles[1..]);
        assert [] + c == c;
        Strings.Concat3(run, text[pos..start], b + c);
        Strings.Concat3(a, b, c);
        ThreePieces(Strip(a), Strip(b), Shown(text, [], end, lexemes[1..], roles[1..]), a, b, c);
      }
    }
  }

  lemma TailConcat(text: Text, pos: nat, start: nat, end: nat)
    requires pos <= start <= end <= |text|
    ensures text[pos..] == text[pos..end] + text[end..]
    ensures text[pos..] == text[pos..start] + (text[start..end] + text[end..])
  {
  }

  /** Three pieces no longer than three others make the same text only piece by piece. */
  lemma ThreePieces(x: Text, y: Text, z: Text, a: Text, b: Text, c: Text)
    requires |x| <= |a| && |y| <= |b| && |z| <= |c|
    requires (|x| == |a| ==> x == a) && (|y| == |b| ==> y == b)
    ensures x + y + z == a + b + c <==> x == a && y == b && z == c
  {
    if x + y + z == a + b + c {
      assert |x + y + z| == |a + b + c|;
      assert z == (x + y + z)[|x| + |y|..] == (a + b + c)[|a| + |b|..] == c;
    }
  }

  /** What a caller can look for: text returned as it came holds no escape, and text that is
      coloured none within a run between two colours. */
  ghost predicate Clean(text: Text, reading: Reading)
    requires Monotone(text, 0, reading.lexemes)
  {
    if Accepted(text, reading) then NoEscapes(text, [], 0, reading.lexemes, Roles([], TokensOf(reading.lexemes)))
    else Strip(text) == text
  }

  /** Stripping the colouring gives the text back, for every text and every tokenizer whose
      offsets never go back, exactly when the text is clean. */
  lemma JsonErasureIsExact(text: Text, reading: Reading)
    requires Monotone(text, 0, reading.lexemes)
    ensures Strip(Coloured(text, reading)) == text <==> Clean(text, reading)
  {
    if Accepted(text, reading) {
      var roles := Roles([], TokensOf(reading.lexemes));
      hide Strip, Roles, Accepted;
      WeaveShows(text, [], [], 0, reading.lexemes, roles);
      ShownIsWhole(text, [], 0, reading.lexemes, roles);
      ScanNothing([]);
      StripByScan(Coloured(text, reading));
      assert [] + text[0..] == text;
      assert [] + Shown(text, [], 0, reading.lexemes, roles) == Shown(text, [], 0, reading.lexemes, roles);
    }
  }

  lemma {:induction false} NoEscapesWithoutEsc(text: Text, run: Text, pos: nat, lexemes: seq<Lexeme>, roles: seq<Role>)
    requires Monotone(text, pos, lexemes) && |roles| == |lexemes| && ESC !in text && ESC !in run
    ensures NoEscapes(text, run, pos, lexemes, roles)
    decreases |lexemes|
  {
    hide Strip;
    if lexemes == [] {
      StripPlain(run + text[pos..]);
    } else {
      var end := EndOf(text, pos, lexemes);
      var start := LiteralStart(text, pos, end);
      StripPlain(run + text[pos..start]);
      StripPlain(text[start..end]);
      NoEscapesWithoutEsc(text, run + text[pos..end], end, lexemes[1..], roles[1..]);
      NoEscapesWithoutEsc(text, [], end, lexemes[1..], roles[1..]);
    }
  }

  /** Text without the escape character comes back whole. RFC 8259 (sections 2 and 7) allows
      that character nowhere in a JSON text. */
  lemma JsonErasure(text: Text, reading: Reading)
    requires Monotone(text, 0, reading.lexemes) && ESC !in text
    ensures Strip(Coloured(text, reading)) == text
  {
    JsonErasureIsExact(text, reading);
    StripPlain(text);
    NoEscapesWithoutEsc(text, [], 0, reading.lexemes, Roles([], TokensOf(reading.lexemes)));
  }

  /** A text that holds an escape, and so does not tokenize, is returned as it came, and does
      not come back once its escapes are removed. */
  lemma JsonErasureFails()
    ensures Coloured(RESET, Reading([], true)) == RESET && Strip(RESET) != RESET
  {
    ScanCode(Scanner([], []), RESET);
    StripByScan(RESET);
  }
}
