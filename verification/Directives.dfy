/** Reading one directive: its keyword, its argument, and the tokens of a condition. */
module Directives {
  import opened PascalSyntax
  import opened ByteText
  import opened ConditionExpressions
  import opened Preprocessor
  import opened PreprocessorLaws

  // ---- Characters

  function UpperByte(b: byte): byte {
    if 97 <= b <= 122 then b - 32 else b
  }

  function UpperText(s: Bytes): string {
    seq(|s|, i requires 0 <= i < |s| => UpperByte(s[i]) as int as char)
  }

  predicate IsLetter(b: byte) {
    65 <= b <= 90 || 97 <= b <= 122
  }

  predicate IsWordStart(b: byte) {
    IsLetter(b) || b == 95
  }

  predicate IsWordPart(b: byte) {
    IsWordStart(b) || 48 <= b <= 57
  }

  const LEFT: byte := 40
  const RIGHT: byte := 41
  const PLUS: byte := 43
  const MINUS: byte := 45
  const QUOTE: byte := 39
  const DOUBLE_QUOTE: byte := 34

  // ---- Tokens of a condition

  function Keyword(word: string): Token {
    if word == "TRUE" then TrueWord
    else if word == "FALSE" then FalseWord
    else if word == "DEFINED" then DefinedWord
    else if word == "NOT" then NotWord
    else if word == "AND" then AndWord
    else if word == "OR" then OrWord
    else Identifier(word)
  }

  /** The end of the word that goes on at `i`. */
  function WordEnd(s: Bytes, i: nat): (end: nat)
    requires i <= |s|
    ensures i <= end <= |s|
    decreases |s| - i
  {
    if i < |s| && IsWordPart(s[i]) then WordEnd(s, i + 1) else i
  }

  /** The tokens up to the first byte that starts none. */
  datatype Tokens = Tokens(tokens: seq<Token>, complete: bool)

  /** The token at `i` and where it ends. */
  function TokenAt(s: Bytes, i: nat): (r: Option<(Token, nat)>)
    requires i < |s|
    ensures r.Some? ==> i < r.value.1 <= |s|
  {
    if s[i] == LEFT then Some((LeftParen, i + 1))
    else if s[i] == RIGHT then Some((RightParen, i + 1))
    else if IsWordStart(s[i]) then
      var end := WordEnd(s, i + 1);
      Some((Keyword(UpperText(s[i..end])), end))
    else None
  }

  function TokensFrom(s: Bytes, i: nat): Tokens
    requires i <= |s|
    decreases |s| - i
  {
    if i == |s| then Tokens([], true)
    else if IsWhitespace(s[i]) then TokensFrom(s, i + 1)
    else
      var next := TokenAt(s, i);
      if next.None? then Tokens([], false) else More(next.value.0, TokensFrom(s, next.value.1))
  }

  function More(t: Token, rest: Tokens): Tokens {
    Tokens([t] + rest.tokens, rest.complete)
  }

  method ReadToken(s: Bytes, i: nat) returns (r: Option<(Token, nat)>)
    requires i < |s|
    ensures r == TokenAt(s, i)
  {
    if s[i] == LEFT {
      return Some((LeftParen, i + 1));
    }
    if s[i] == RIGHT {
      return Some((RightParen, i + 1));
    }
    if !IsWordStart(s[i]) {
      return None;
    }
    var end := i + 1;
    while end < |s| && IsWordPart(s[end])
      invariant i < end <= |s| && WordEnd(s, i + 1) == WordEnd(s, end)
    {
      end := end + 1;
    }
    r := Some((Keyword(UpperText(s[i..end])), end));
  }

  /** The loop that moves along the condition. */
  method Tokenize(s: Bytes) returns (r: Tokens)
    ensures r == TokensFrom(s, 0)
  {
    hide TokenAt;
    var tokens := [];
    var i := 0;
    while i < |s|
      invariant 0 <= i <= |s|
      invariant TokensFrom(s, 0) == Tokens(tokens + TokensFrom(s, i).tokens, TokensFrom(s, i).complete)
    {
      if IsWhitespace(s[i]) {
        i := i + 1;
      } else {
        var next := ReadToken(s, i);
        if next.None? {
          return Tokens(tokens, false);
        }
        tokens := tokens + [next.value.0];
        i := next.value.1;
      }
    }
    r := Tokens(tokens, true);
  }

  // ---- Writing tokens down

  function Word(t: Token): string
    requires !t.LeftParen? && !t.RightParen?
  {
    match t
    case TrueWord => "TRUE"
    case FalseWord => "FALSE"
    case DefinedWord => "DEFINED"
    case NotWord => "NOT"
    case AndWord => "AND"
    case OrWord => "OR"
    case Identifier(name) => name
  }

  /** An upper-case name that is none of the keywords. */
  ghost predicate IsSymbol(name: string) {
    && name != ""
    && IsUpperStart(name[0])
    && (forall i :: 0 <= i < |name| ==> IsUpperPart(name[i]))
    && Keyword(name).Identifier?
  }

  predicate IsUpperStart(c: char) {
    'A' <= c <= 'Z' || c == '_'
  }

  predicate IsUpperPart(c: char) {
    IsUpperStart(c) || '0' <= c <= '9'
  }

  predicate IsUpperWord(w: string) {
    w != "" && IsUpperStart(w[0]) && forall i :: 0 <= i < |w| ==> IsUpperPart(w[i])
  }

  function Ascii(w: string): Bytes
    requires IsUpperWord(w)
  {
    seq(|w|, i requires 0 <= i < |w| => w[i] as int as byte)
  }

  ghost predicate Writable(t: Token) {
    t.Identifier? ==> IsSymbol(t.name)
  }

  lemma WordsAreUpper(t: Token)
    requires Writable(t) && !t.LeftParen? && !t.RightParen?
    ensures IsUpperWord(Word(t)) && Keyword(Word(t)) == t
  {}

  /** One token and a space. */
  ghost function Write(t: Token): Bytes
    requires Writable(t)
  {
    if t.LeftParen? then [LEFT, SPACE]
    else if t.RightParen? then [RIGHT, SPACE]
    else
      WordsAreUpper(t);
      Ascii(Word(t)) + [SPACE]
  }

  ghost function WriteAll(ts: seq<Token>): Bytes
    requires forall i :: 0 <= i < |ts| ==> Writable(ts[i])
  {
    if ts == [] then [] else Write(ts[0]) + WriteAll(ts[1..])
  }

  lemma {:induction false} WordEndsAt(s: Bytes, i: nat, end: nat)
    requires i <= end < |s| && (forall k :: i <= k < end ==> IsWordPart(s[k])) && !IsWordPart(s[end])
    ensures WordEnd(s, i) == end
    decreases end - i
  {
    if i < end {
      WordEndsAt(s, i + 1, end);
    }
  }

  /** A word that was written is read back as its token. */
  lemma WordRead(s: Bytes, i: nat, w: string)
    requires IsUpperWord(w) && i + |w| < |s| && s[i..i + |w|] == Ascii(w) && s[i + |w|] == SPACE
    ensures TokenAt(s, i) == Some((Keyword(w), i + |w|)) && !IsWhitespace(s[i])
  {
    var a := Ascii(w);
    var end := i + |w|;
    forall k | i <= k < end ensures IsWordPart(s[k]) && UpperByte(s[k]) == s[k] && s[k] == w[k - i] as int as byte {
      assert s[i..end][k - i] == a[k - i] && IsUpperPart(w[k - i]);
    }
    assert IsUpperStart(w[0]);
    hide Keyword;
    WordEndsAt(s, i + 1, end);
    var read := UpperText(s[i..end]);
    assert read == w by {
      forall k | 0 <= k < |w| ensures read[k] == w[k] {
        assert s[i..end][k] == s[i + k];
      }
    }
  }

  /** A written token is read, and its space skipped. */
  lemma TokenRead(s: Bytes, i: nat, t: Token)
    requires Writable(t) && i + |Write(t)| <= |s| && s[i..i + |Write(t)|] == Write(t)
    ensures TokensFrom(s, i) == More(t, TokensFrom(s, i + |Write(t)|))
  {
    var end := i + |Write(t)| - 1;
    assert s[end] == s[i..i + |Write(t)|][|Write(t)| - 1] == SPACE;
    if t.LeftParen? || t.RightParen? {
      assert s[i] == s[i..i + |Write(t)|][0];
    } else {
      WordsAreUpper(t);
      assert s[i..end] == s[i..i + |Write(t)|][..|Write(t)| - 1] == Ascii(Word(t));
      WordRead(s, i, Word(t));
    }
    assert TokenAt(s, i) == Some((t, end)) && !IsWhitespace(s[i]);
    hide TokenAt, Keyword, Write;
    assert TokensFrom(s, end) == TokensFrom(s, end + 1);
  }

  /** Tokens that were written down are read back unchanged. */
  lemma {:induction false} TokensReadBack(s: Bytes, i: nat, ts: seq<Token>)
    requires (forall k :: 0 <= k < |ts| ==> Writable(ts[k])) && i <= |s| && s[i..] == WriteAll(ts)
    ensures TokensFrom(s, i) == Tokens(ts, true)
    decreases |ts|
  {
    hide Write, TokenAt, Writable;
    if ts == [] {
      assert i == |s|;
    } else {
      var t, rest := ts[0], ts[1..];
      var n := |Write(t)|;
      assert s[i..] == Write(t) + WriteAll(rest);
      assert s[i..][..n] == s[i..i + n] && s[i..][n..] == s[i + n..];
      TokenRead(s, i, t);
      TokensReadBack(s, i + n, rest);
      assert ts == [t] + rest;
    }
  }

  ghost predicate Printable(c: Condition) {
    match c
    case Constant(_) => true
    case Symbol(n) => IsSymbol(n)
    case Negated(x) => Printable(x)
    case Both(l, r) => Printable(l) && Printable(r)
    case Either(l, r) => Printable(l) && Printable(r)
  }

  lemma {:induction false} PrintedWritable(c: Condition)
    requires Printable(c)
    ensures forall i :: 0 <= i < |PrintNot(c)| ==> Writable(PrintNot(c)[i])
    ensures forall i :: 0 <= i < |PrintAnd(c)| ==> Writable(PrintAnd(c)[i])
    ensures forall i :: 0 <= i < |PrintOr(c)| ==> Writable(PrintOr(c)[i])
    decreases c
  {
    hide IsSymbol;
    match c
    case Constant(_) =>
    case Symbol(_) =>
    case Negated(x) => PrintedWritable(x);
    case Both(l, r) => PrintedWritable(l); PrintedWritable(r);
    case Either(l, r) => PrintedWritable(l); PrintedWritable(r);
  }

  /** From tree to text and back: the text of a condition is read as its postfix code, unless it nests too deep. */
  lemma ConditionReadBack(c: Condition, limit: nat)
    requires Printable(c)
    ensures (forall i :: 0 <= i < |PrintOr(c)| ==> Writable(PrintOr(c)[i]))
    ensures var read := TokensFrom(WriteAll(PrintOr(c)), 0);
            read.complete
            && ParseCondition(read.tokens, limit)
               == if DepthOr(c) <= limit then Parsed(Postfix(c), |PrintOr(c)|) else Rejected(TooDeep(limit + 1))
  {
    PrintedWritable(c);
    hide PrintOr;
    var s := WriteAll(PrintOr(c));
    assert s[0..] == s;
    TokensReadBack(s, 0, PrintOr(c));
    ParserInvertsPrinter(c, limit);
  }

  // ---- The parts of a directive

  function Trim(s: Bytes, r: Range): (t: Range)
    requires r.Within(|s|)
    ensures r.start <= t.start <= t.end <= r.end
    ensures t.start < t.end ==> !IsWhitespace(s[t.start]) && !IsWhitespace(s[t.end - 1])
    decreases r.end - r.start
  {
    if r.start < r.end && IsWhitespace(s[r.start]) then Trim(s, Range(r.start + 1, r.end))
    else if r.start < r.end && IsWhitespace(s[r.end - 1]) then Trim(s, Range(r.start, r.end - 1))
    else r
  }

  /** The upper-case name, if the bytes are one word. */
  function SymbolOf(s: Bytes): Option<string> {
    if s != [] && IsWordStart(s[0]) && (forall i :: 0 <= i < |s| ==> IsWordPart(s[i])) then Some(UpperText(s)) else None
  }

  predicate IsQuote(b: byte) {
    b == QUOTE || b == DOUBLE_QUOTE
  }

  /** How a path is spelled inside quotes: each quote in it is written twice. */
  function Doubled(path: Bytes, quote: byte): Bytes {
    if path == [] then [] else (if path[0] == quote then [quote, quote] else [path[0]]) + Doubled(path[1..], quote)
  }

  predicate OnOneLine(path: Bytes) {
    forall i :: 0 <= i < |path| ==> !IsBreak(path[i])
  }

  /** From `i` to `end` stands the path, spelled out, and one closing quote that is not the first of two. */
  predicate Spells(s: Bytes, i: nat, end: nat, path: Bytes, quote: byte) {
    i <= end <= |s| && s[i..end] == Doubled(path, quote) + [quote] && (end < |s| ==> s[end] != quote)
  }

  /** Reading on from `i`: the quotes come in pairs until one closes the path, at its end and not at its start. */
  function QuotedPath(s: Bytes, i: nat, end: nat, from: nat, quote: byte): bool
    requires end <= |s|
    decreases |s| - i
  {
    if i >= end then false
    else if s[i] == quote then
      if i + 1 < |s| && s[i + 1] == quote then QuotedPath(s, i + 2, end, from, quote)
      else i != from && i + 1 == end
    else if IsBreak(s[i]) then false
    else QuotedPath(s, i + 1, end, from, quote)
  }

  /** What is accepted spells a path. */
  lemma {:induction false} QuotedSpells(s: Bytes, i: nat, end: nat, from: nat, quote: byte) returns (path: Bytes)
    requires end <= |s| && IsQuote(quote) && QuotedPath(s, i, end, from, quote)
    ensures Spells(s, i, end, path, quote) && OnOneLine(path) && (i == from ==> path != [])
    decreases |s| - i
  {
    if s[i] == quote && !(i + 1 < |s| && s[i + 1] == quote) {
      path := [];
      assert s[i..end] == [quote];
    } else {
      var step := if s[i] == quote then 2 else 1;
      var rest := QuotedSpells(s, i + step, end, from, quote);
      path := [s[i]] + rest;
      assert path[1..] == rest;
      assert s[i..end] == s[i..i + step] + s[i + step..end];
    }
  }

  /** What spells a path is accepted. */
  lemma {:induction false} SpelledIsQuoted(s: Bytes, i: nat, end: nat, from: nat, path: Bytes, quote: byte)
    requires Spells(s, i, end, path, quote) && IsQuote(quote) && OnOneLine(path) && (i == from ==> path != [])
    requires from <= i
    ensures QuotedPath(s, i, end, from, quote)
    decreases |path|
  {
    var all := Doubled(path, quote) + [quote];
    assert all[0] == s[i];
    if path == [] {
      assert i + 1 == end;
    } else {
      var step := if path[0] == quote then 2 else 1;
      assert s[i..end][step..] == s[i + step..end] && all[step..] == Doubled(path[1..], quote) + [quote];
      assert path[0] == quote ==> all[1] == s[i + 1];
      SpelledIsQuoted(s, i + step, end, from, path[1..], quote);
    }
  }

  /**
    Bare paths are one word without quotes; a quoted path is any path of one line and at least one
    byte, spelled out.
    */
  ghost predicate IsIncludePath(s: Bytes, r: Range)
    requires r.start < r.end <= |s|
  {
    if IsQuote(s[r.start]) then
      exists path :: path != [] && OnOneLine(path) && Spells(s, r.start + 1, r.end, path, s[r.start])
    else forall i :: r.start <= i < r.end ==> !IsWhitespace(s[i]) && !IsQuote(s[i])
  }

  predicate IncludePath(s: Bytes, r: Range)
    requires r.start < r.end <= |s|
  {
    if IsQuote(s[r.start]) then QuotedPath(s, r.start + 1, r.end, r.start + 1, s[r.start])
    else forall i :: r.start <= i < r.end ==> !IsWhitespace(s[i]) && !IsQuote(s[i])
  }

  lemma IncludePathMeans(s: Bytes, r: Range)
    requires r.start < r.end <= |s|
    ensures IncludePath(s, r) <==> IsIncludePath(s, r)
  {
    var from, quote := r.start + 1, s[r.start];
    if IsQuote(quote) {
      if QuotedPath(s, from, r.end, from, quote) {
        var path := QuotedSpells(s, from, r.end, from, quote);
      } else {
        forall path | path != [] && OnOneLine(path) ensures !Spells(s, from, r.end, path, quote) {
          if Spells(s, from, r.end, path, quote) {
            SpelledIsQuoted(s, from, r.end, from, path, quote);
          }
        }
      }
    }
  }

  method CheckIncludePath(s: Bytes, r: Range) returns (ok: bool)
    requires r.start < r.end <= |s|
    ensures ok == IncludePath(s, r) && (ok <==> IsIncludePath(s, r))
  {
    IncludePathMeans(s, r);
    var i := r.start;
    if !IsQuote(s[i]) {
      while i < r.end
        invariant r.start <= i <= r.end && forall k :: r.start <= k < i ==> !IsWhitespace(s[k]) && !IsQuote(s[k])
      {
        if IsWhitespace(s[i]) || IsQuote(s[i]) {
          return false;
        }
        i := i + 1;
      }
      return true;
    }
    var quote := s[i];
    i := i + 1;
    var from := i;
    while i < r.end
      invariant QuotedPath(s, i, r.end, from, quote) == QuotedPath(s, from, r.end, from, quote)
    {
      if s[i] == quote {
        if i + 1 < |s| && s[i + 1] == quote {
          i := i + 2;
        } else {
          return i != from && i + 1 == r.end;
        }
      } else if IsBreak(s[i]) {
        return false;
      } else {
        i := i + 1;
      }
    }
    ok := false;
  }

  /** What reading the tokens of a condition costs. */
  function TokenCharges(n: nat): seq<(Budget, nat)> {
    if n == 0 then [] else TokenCharges(n - 1) + [(ExpressionTokens, 1), (Work, 1)]
  }

  function ConditionReading(s: Bytes, depth: nat, branch: bool): Reading {
    var read := TokensFrom(s, 0);
    var charges := [(ExpressionBytes, |s|), (Work, |s|), (ExpressionTokens, 0)] + TokenCharges(|read.tokens|);
    if !read.complete || read.tokens == [] then Reading(charges, Fail(InvalidDirective))
    else
      match ParseCondition(read.tokens, depth)
      case Parsed(code, _) => Reading(charges, Done(if branch then ElseIf(code) else If(code)))
      case Rejected(TooDeep(_)) => Reading(charges, Fail(BudgetExceeded(ExpressionDepth)))
      case Rejected(Malformed) => Reading(charges, Fail(InvalidDirective))
  }

  function Plainly(command: Outcome<Command>): Reading {
    Reading([], command)
  }

  function WithSymbol(s: Bytes, make: string -> Command): Reading {
    var name := SymbolOf(s);
    Plainly(if name.Some? then Done(make(name.value)) else Fail(InvalidDirective))
  }

  function Bare(argument: Bytes, command: Command): Reading {
    Plainly(if argument == [] then Done(command) else Fail(InvalidDirective))
  }

  /** A directive by its keyword. */
  function ReadingOf(s: Bytes, keyword: Range, argument: Range, depth: nat): Reading
    requires keyword.Within(|s|) && argument.Within(|s|)
  {
    var word := UpperText(Slice(s, keyword));
    var r := Trim(s, argument);
    var arg := Slice(s, r);
    if word == "IFDEF" then WithSymbol(arg, n => If([Defined(n)]))
    else if word == "IFNDEF" then WithSymbol(arg, n => If([Defined(n), Not]))
    else if word == "IF" then ConditionReading(arg, depth, false)
    else if word == "ELSEIF" || word == "ELIF" then ConditionReading(arg, depth, true)
    else if word == "ELSE" then Bare(arg, Else)
    else if word == "ENDIF" || word == "IFEND" then Bare(arg, EndIf)
    else if word == "DEFINE" then WithSymbol(arg, n => Define(n))
    else if word == "UNDEF" then WithSymbol(arg, n => Undef(n))
    else if word == "I" || word == "INCLUDE" then
      if arg == [] || arg[0] == PLUS || arg[0] == MINUS then Plainly(Done(Unsupported))
      else Plainly(if IncludePath(s, r) then Done(Include) else Fail(InvalidDirective))
    else Plainly(Done(Unsupported))
  }

  // ---- Written directives are read back

  /** A directive as it is written: what follows its keyword. */
  datatype Written =
    | IfDefined(name: Bytes)
    | IfNotDefined(name: Bytes)
    | IfHolds(condition: Condition)
    | ElseIfHolds(condition: Condition)
    | ElseBranch
    | EndOfIf
    | DefineName(name: Bytes)
    | UndefName(name: Bytes)
    | IncludeOf(path: Bytes, quote: byte)

  predicate IsName(name: Bytes) {
    name != [] && IsWordStart(name[0]) && forall i :: 0 <= i < |name| ==> IsWordPart(name[i])
  }

  ghost predicate Proper(d: Written) {
    match d
    case IfDefined(name) => IsName(name)
    case IfNotDefined(name) => IsName(name)
    case DefineName(name) => IsName(name)
    case UndefName(name) => IsName(name)
    case IfHolds(c) => Printable(c)
    case ElseIfHolds(c) => Printable(c)
    case IncludeOf(path, quote) => IsQuote(quote) && path != [] && OnOneLine(path)
    case _ => true
  }

  /** The keywords with which it can be written, in capitals. */
  function Keywords(d: Written): set<string> {
    match d
    case IfDefined(_) => {"IFDEF"}
    case IfNotDefined(_) => {"IFNDEF"}
    case IfHolds(_) => {"IF"}
    case ElseIfHolds(_) => {"ELSEIF", "ELIF"}
    case ElseBranch => {"ELSE"}
    case EndOfIf => {"ENDIF", "IFEND"}
    case DefineName(_) => {"DEFINE"}
    case UndefName(_) => {"UNDEF"}
    case IncludeOf(_, _) => {"I", "INCLUDE"}
  }

  ghost function Text(d: Written): Bytes
    requires Proper(d)
  {
    match d
    case IfDefined(name) => name
    case IfNotDefined(name) => name
    case DefineName(name) => name
    case UndefName(name) => name
    case IfHolds(c) => PrintedWritable(c); WriteAll(PrintOr(c))
    case ElseIfHolds(c) => PrintedWritable(c); WriteAll(PrintOr(c))
    case IncludeOf(path, quote) => [quote] + Doubled(path, quote) + [quote]
    case _ => []
  }

  /** What it tells the preprocessor to do. */
  ghost function CommandOf(d: Written, depth: nat): Outcome<Command> {
    match d
    case IfDefined(name) => Done(If(Postfix(Symbol(UpperText(name)))))
    case IfNotDefined(name) => Done(If(Postfix(Negated(Symbol(UpperText(name))))))
    case IfHolds(c) => if DepthOr(c) <= depth then Done(If(Postfix(c))) else Fail(BudgetExceeded(ExpressionDepth))
    case ElseIfHolds(c) =>
      if DepthOr(c) <= depth then Done(ElseIf(Postfix(c))) else Fail(BudgetExceeded(ExpressionDepth))
    case ElseBranch => Done(Else)
    case EndOfIf => Done(EndIf)
    case DefineName(name) => Done(Define(UpperText(name)))
    case UndefName(name) => Done(Undef(UpperText(name)))
    case IncludeOf(_, _) => Done(Include)
  }

  predicate Blank(s: Bytes) {
    forall i :: 0 <= i < |s| ==> IsWhitespace(s[i])
  }

  /** Neither end is blank. */
  predicate Trimmed(s: Bytes) {
    s != [] ==> !IsWhitespace(s[0]) && !IsWhitespace(s[|s| - 1])
  }

  lemma {:induction false} TrimsFront(s: Bytes, r: Range, n: nat)
    requires r.Within(|s|) && r.start + n <= r.end && Blank(s[r.start..r.start + n])
    ensures Trim(s, r) == Trim(s, Range(r.start + n, r.end))
    decreases n
  {
    if n > 0 {
      assert s[r.start] == s[r.start..r.start + n][0];
      assert s[r.start + 1..r.start + n] == s[r.start..r.start + n][1..];
      TrimsFront(s, Range(r.start + 1, r.end), n - 1);
    }
  }

  lemma {:induction false} TrimsBack(s: Bytes, r: Range, n: nat)
    requires r.Within(|s|) && r.start < r.end - n && Blank(s[r.end - n..r.end])
    requires !IsWhitespace(s[r.start]) && !IsWhitespace(s[r.end - n - 1])
    ensures Trim(s, r) == Range(r.start, r.end - n)
    decreases n
  {
    if n > 0 {
      var back, less := s[r.end - n..r.end], s[r.end - n..r.end - 1];
      assert s[r.end - 1] == back[n - 1];
      forall i | 0 <= i < |less| ensures IsWhitespace(less[i]) {
        assert less[i] == back[i];
      }
      TrimsBack(s, Range(r.start, r.end - 1), n - 1);
    }
  }

  lemma ThreeParts(s: Bytes, r: Range, a: Bytes, b: Bytes, c: Bytes)
    requires r.Within(|s|) && Slice(s, r) == a + b + c
    ensures r.start + |a| + |b| + |c| == r.end
    ensures s[r.start..r.start + |a|] == a && s[r.start + |a|..r.end - |c|] == b && s[r.end - |c|..r.end] == c
  {
    var all, i, j := a + b + c, |a|, |a| + |b|;
    SubSlice(s, r.start, r.end, 0, i);
    SubSlice(s, r.start, r.end, i, j);
    SubSlice(s, r.start, r.end, j, |all|);
    Thirds(a, b, c);
  }

  lemma SubSlice(s: Bytes, from: nat, to: nat, i: nat, j: nat)
    requires from <= to <= |s| && i <= j <= to - from
    ensures s[from..to][i..j] == s[from + i..from + j]
  {
    var x, y := s[from..to][i..j], s[from + i..from + j];
    forall k | 0 <= k < j - i ensures x[k] == y[k] {
      assert x[k] == s[from..to][i + k] == s[from + i + k];
    }
  }

  lemma Thirds(a: Bytes, b: Bytes, c: Bytes)
    ensures var all := a + b + c;
            all[0..|a|] == a && all[|a|..|a| + |b|] == b && all[|a| + |b|..|all|] == c
  {}

  lemma TrimsTo(s: Bytes, r: Range, from: nat, to: nat)
    requires r.Within(|s|) && r.start <= from <= to <= r.end && Blank(s[r.start..from]) && Blank(s[to..r.end])
    requires from < to ==> !IsWhitespace(s[from]) && !IsWhitespace(s[to - 1])
    ensures Trim(s, r) == if from < to then Range(from, to) else Range(r.end, r.end)
  {
    hide Trim, IsWhitespace, Blank;
    TrimsFront(s, r, from - r.start);
    if from < to {
      TrimsBack(s, Range(from, r.end), r.end - to);
    } else {
      TrimsFront(s, Range(from, r.end), r.end - to);
      TrimsNothing(s, r.end);
    }
  }

  lemma TrimsPadding(s: Bytes, r: Range, before: Bytes, text: Bytes, after: Bytes)
    requires r.Within(|s|) && Slice(s, r) == before + text + after && Blank(before) && Blank(after) && Trimmed(text)
    ensures Slice(s, Trim(s, r)) == text
    ensures text != [] ==> Trim(s, r) == Range(r.start + |before|, r.end - |after|)
  {
    hide Trim, IsWhitespace, Blank;
    ThreeParts(s, r, before, text, after);
    var from, to := r.start + |before|, r.end - |after|;
    if text != [] {
      var t := s[from..to];
      assert t[0] == s[from] && t[|t| - 1] == s[to - 1];
    }
    TrimsTo(s, r, from, to);
  }

  lemma TrimsNothing(s: Bytes, i: nat)
    requires i <= |s|
    ensures Trim(s, Range(i, i)) == Range(i, i)
  {}

  lemma {:induction false} WordEndPadded(s: Bytes, i: nat)
    requires i <= |s|
    ensures WordEnd(s + [SPACE], i) == WordEnd(s, i)
    decreases |s| - i
  {
    if i < |s| && IsWordPart(s[i]) {
      WordEndPadded(s, i + 1);
    }
  }

  /** A blank at the end changes no tokens. */
  lemma {:induction false} TokensPadded(s: Bytes, i: nat)
    requires i <= |s|
    ensures TokensFrom(s + [SPACE], i) == TokensFrom(s, i)
    decreases |s| - i
  {
    hide Keyword;
    var padded := s + [SPACE];
    if i == |s| {
      assert TokensFrom(padded, i + 1) == Tokens([], true);
    } else if IsWhitespace(s[i]) {
      TokensPadded(s, i + 1);
    } else {
      WordEndPadded(s, i + 1);
      assert padded[i] == s[i] && padded[i..WordEnd(s, i + 1)] == s[i..WordEnd(s, i + 1)];
      assert TokenAt(padded, i) == TokenAt(s, i);
      if TokenAt(s, i).Some? {
        TokensPadded(s, TokenAt(s, i).value.1);
      }
    }
  }

  lemma TokenEnds(t: Token)
    requires Writable(t)
    ensures var w := Write(t); |w| >= 2 && w[|w| - 1] == SPACE && !IsWhitespace(w[0]) && !IsWhitespace(w[|w| - 2])
  {
    if !t.LeftParen? && !t.RightParen? {
      WordsAreUpper(t);
      var word := Word(t);
      assert IsUpperPart(word[0]) && IsUpperPart(word[|word| - 1]);
      assert Write(t)[|word| - 1] == Ascii(word)[|word| - 1];
    }
  }

  /** Written tokens end with their one blank, and start with none. */
  lemma {:induction false} WrittenEnds(ts: seq<Token>)
    requires ts != [] && forall k :: 0 <= k < |ts| ==> Writable(ts[k])
    ensures var w := WriteAll(ts); |w| >= 2 && w[|w| - 1] == SPACE && !IsWhitespace(w[0]) && !IsWhitespace(w[|w| - 2])
    decreases |ts|
  {
    hide Write, Writable;
    TokenEnds(ts[0]);
    if |ts| == 1 {
      assert WriteAll(ts[1..]) == [];
      assert WriteAll(ts) == Write(ts[0]) + [];
    } else {
      WrittenEnds(ts[1..]);
    }
  }

  /** What reading a condition of so many bytes and tokens costs in all. */
  function Cost(bytes: nat, tokens: nat, budget: Budget): nat {
    match budget
    case ExpressionBytes => bytes
    case ExpressionTokens => tokens
    case Work => bytes + tokens
    case _ => 0
  }

  lemma {:induction false} ChargedAdds(a: seq<(Budget, nat)>, b: seq<(Budget, nat)>, budget: Budget)
    ensures Charged(a + b, budget) == Charged(a, budget) + Charged(b, budget)
    decreases |a|
  {
    if a == [] {
      assert a + b == b;
    } else {
      assert (a + b)[1..] == a[1..] + b;
      ChargedAdds(a[1..], b, budget);
    }
  }

  lemma ChargedTwo(a: (Budget, nat), b: (Budget, nat), budget: Budget)
    ensures Charged([a, b], budget) == (if a.0 == budget then a.1 else 0) + if b.0 == budget then b.1 else 0
  {
    assert [a, b][1..] == [b] && [b][1..] == [];
    assert Charged([b], budget) == if b.0 == budget then b.1 else 0;
  }

  lemma {:induction false} TokensCost(n: nat, budget: Budget)
    ensures Charged(TokenCharges(n), budget) == if budget == ExpressionTokens || budget == Work then n else 0
  {
    if n > 0 {
      TokensCost(n - 1, budget);
      ChargedAdds(TokenCharges(n - 1), [(ExpressionTokens, 1), (Work, 1)], budget);
      ChargedTwo((ExpressionTokens, 1), (Work, 1), budget);
    }
  }

  lemma ConditionCost(bytes: nat, tokens: nat, budget: Budget)
    ensures Charged([(ExpressionBytes, bytes), (Work, bytes), (ExpressionTokens, 0)] + TokenCharges(tokens), budget)
            == Cost(bytes, tokens, budget)
  {
    var head := [(ExpressionBytes, bytes), (Work, bytes), (ExpressionTokens, 0)];
    ChargedAdds(head, TokenCharges(tokens), budget);
    TokensCost(tokens, budget);
    assert head[1..] == [(Work, bytes), (ExpressionTokens, 0)];
    ChargedTwo((Work, bytes), (ExpressionTokens, 0), budget);
  }

  lemma ConditionRead(c: Condition, text: Bytes, depth: nat, branch: bool)
    requires Printable(c)
    requires (forall i :: 0 <= i < |PrintOr(c)| ==> Writable(PrintOr(c)[i])) && text + [SPACE] == WriteAll(PrintOr(c))
    ensures ConditionReading(text, depth, branch).command
            == if DepthOr(c) > depth then Fail(BudgetExceeded(ExpressionDepth))
               else Done(if branch then ElseIf(Postfix(c)) else If(Postfix(c)))
    ensures forall b :: Charged(ConditionReading(text, depth, branch).charges, b) == Cost(|text|, |PrintOr(c)|, b)
  {
    forall b ensures Charged([(ExpressionBytes, |text|), (Work, |text|), (ExpressionTokens, 0)]
                             + TokenCharges(|PrintOr(c)|), b)
                     == Cost(|text|, |PrintOr(c)|, b)
    {
      ConditionCost(|text|, |PrintOr(c)|, b);
    }
    hide Charged, Cost, TokenCharges;
    hide TokensFrom, PrintOr, Postfix, ParseCondition, DepthOr;
    ConditionReadBack(c, depth);
    TokensPadded(text, 0);
    PrintedSomething(c);
    assert WriteAll(PrintOr(c))[0..] == WriteAll(PrintOr(c));
    TokensReadBack(WriteAll(PrintOr(c)), 0, PrintOr(c));
  }

  lemma PrintedSomething(c: Condition)
    ensures PrintNot(c) != [] && PrintAnd(c) != [] && PrintOr(c) != []
  {
    assert PrintNot(c) != [];
  }

  lemma BlankMore(s: Bytes)
    requires Blank(s)
    ensures Blank([SPACE] + s)
  {}

  /** Text with one blank at its end, and padding around it. */
  lemma TrimsLoose(s: Bytes, r: Range, before: Bytes, text: Bytes, after: Bytes) returns (core: Bytes)
    requires r.Within(|s|) && Slice(s, r) == before + text + after && Blank(before) && Blank(after)
    requires |text| >= 2 && text[|text| - 1] == SPACE && !IsWhitespace(text[0]) && !IsWhitespace(text[|text| - 2])
    ensures text == core + [SPACE] && Slice(s, Trim(s, r)) == core
  {
    hide Trim, IsWhitespace, Blank;
    core := text[..|text| - 1];
    assert text == core + [SPACE];
    assert before + text + after == before + core + ([SPACE] + after);
    BlankMore(after);
    TrimsPadding(s, r, before, core, [SPACE] + after);
  }

  predicate Names(d: Written) {
    d.IfDefined? || d.IfNotDefined? || d.DefineName? || d.UndefName?
  }

  predicate HasCondition(d: Written) {
    d.IfHolds? || d.ElseIfHolds?
  }

  /** Only conditions cost more than the directive itself: their bytes, without the last blank, and their tokens. */
  ghost predicate Costs(charges: seq<(Budget, nat)>, d: Written)
    requires Proper(d)
  {
    if HasCondition(d) then
      Text(d) != [] && forall b :: Charged(charges, b) == Cost(|Text(d)| - 1, |PrintOr(d.condition)|, b)
    else charges == []
  }

  lemma NameCodes(name: string)
    ensures Postfix(Symbol(name)) == [Defined(name)] && Postfix(Negated(Symbol(name))) == [Defined(name), Not]
  {
    assert Postfix(Symbol(name)) == [Defined(name)];
    assert Postfix(Negated(Symbol(name))) == [Defined(name)] + [Not];
  }

  lemma NameRead(s: Bytes, keyword: Range, argument: Range, depth: nat, d: Written)
    requires keyword.Within(|s|) && argument.Within(|s|) && UpperText(Slice(s, keyword)) in Keywords(d)
    requires !HasCondition(d) && !d.IncludeOf? && Proper(d) && Slice(s, Trim(s, argument)) == Text(d)
    ensures ReadingOf(s, keyword, argument, depth).command == CommandOf(d, depth)
    ensures ReadingOf(s, keyword, argument, depth).charges == []
  {
    hide ConditionReading, UpperText, IsWordPart, Trim, Postfix;
    if Names(d) {
      NameCodes(UpperText(d.name));
    }
  }

  lemma ConditionKeyword(s: Bytes, keyword: Range, argument: Range, depth: nat, d: Written)
    requires keyword.Within(|s|) && argument.Within(|s|) && UpperText(Slice(s, keyword)) in Keywords(d)
    requires HasCondition(d)
    ensures ReadingOf(s, keyword, argument, depth)
            == ConditionReading(Slice(s, Trim(s, argument)), depth, d.ElseIfHolds?)
  {
    hide UpperText, Trim, ConditionReading;
  }

  lemma ConditionDirective(
    s: Bytes, keyword: Range, argument: Range, depth: nat, d: Written, before: Bytes, after: Bytes)
    requires keyword.Within(|s|) && argument.Within(|s|) && UpperText(Slice(s, keyword)) in Keywords(d)
    requires HasCondition(d) && Proper(d) && Blank(before) && Blank(after)
    requires Slice(s, argument) == before + Text(d) + after
    ensures ReadingOf(s, keyword, argument, depth).command == CommandOf(d, depth)
    ensures Costs(ReadingOf(s, keyword, argument, depth).charges, d)
  {
    hide ReadingOf, Keywords, WriteAll, PrintOr, ConditionReading, UpperText, Trim, Postfix, DepthOr, Writable, Proper;
    hide IsWhitespace, Blank, Charged, Cost, Text;
    ConditionKeyword(s, keyword, argument, depth, d);
    ConditionText(d);
    var core := TrimsLoose(s, argument, before, Text(d), after);
    ConditionRead(d.condition, core, depth, d.ElseIfHolds?);
  }

  lemma ConditionText(d: Written)
    requires HasCondition(d) && Proper(d)
    ensures var text, tokens := Text(d), PrintOr(d.condition);
            && Printable(d.condition) && (forall i :: 0 <= i < |tokens| ==> Writable(tokens[i]))
            && text == WriteAll(tokens)
            && |text| >= 2 && text[|text| - 1] == SPACE && !IsWhitespace(text[0]) && !IsWhitespace(text[|text| - 2])
  {
    PrintedWritable(d.condition);
    PrintedSomething(d.condition);
    hide PrintOr, Printable, Writable;
    WrittenEnds(PrintOr(d.condition));
  }

  lemma TextTrimmed(d: Written)
    requires !HasCondition(d) && Proper(d)
    ensures Trimmed(Text(d))
  {}

  lemma IncludeDirective(
    s: Bytes, keyword: Range, argument: Range, depth: nat, d: Written, before: Bytes, after: Bytes)
    requires keyword.Within(|s|) && argument.Within(|s|) && UpperText(Slice(s, keyword)) in Keywords(d)
    requires d.IncludeOf? && Proper(d) && Blank(after) && Slice(s, argument) == before + Text(d) + after
    requires Slice(s, Trim(s, argument)) == Text(d)
    requires Trim(s, argument) == Range(argument.start + |before|, argument.end - |after|)
    requires argument.end < |s| ==> !IsQuote(s[argument.end])
    ensures ReadingOf(s, keyword, argument, depth).command == CommandOf(d, depth)
    ensures ReadingOf(s, keyword, argument, depth).charges == []
  {
    hide UpperText, Trim, ConditionReading;
    ThreeParts(s, argument, before, Text(d), after);
    hide Doubled;
    IncludeRead(s, Trim(s, argument), argument, d.path, d.quote, after);
  }

  /**
    Whatever the case of its keyword and the blanks around its argument, a written directive is read
    as what it says.
    */
  lemma DirectiveReadBack(
    s: Bytes, keyword: Range, argument: Range, depth: nat, d: Written, before: Bytes, after: Bytes)
    requires keyword.Within(|s|) && argument.Within(|s|) && Proper(d) && UpperText(Slice(s, keyword)) in Keywords(d)
    requires Slice(s, argument) == before + Text(d) + after && Blank(before) && Blank(after)
    requires argument.end < |s| ==> !IsQuote(s[argument.end])
    ensures ReadingOf(s, keyword, argument, depth).command == CommandOf(d, depth)
    ensures Costs(ReadingOf(s, keyword, argument, depth).charges, d)
  {
    if HasCondition(d) {
      ConditionDirective(s, keyword, argument, depth, d, before, after);
    } else {
      TextTrimmed(d);
      hide UpperText, Trim, Text, Keywords, Trimmed;
      TrimsPadding(s, argument, before, Text(d), after);
      if d.IncludeOf? {
        IncludeDirective(s, keyword, argument, depth, d, before, after);
      } else {
        NameRead(s, keyword, argument, depth, d);
      }
    }
  }

  lemma IncludeRead(s: Bytes, r: Range, argument: Range, path: Bytes, quote: byte, after: Bytes)
    requires IsQuote(quote) && path != [] && OnOneLine(path)
    requires argument.Within(|s|) && r.Within(|s|) && Slice(s, r) == [quote] + Doubled(path, quote) + [quote]
    requires r.end == argument.end - |after| && Blank(after) && r.start >= argument.start
    requires Slice(s, Range(r.end, argument.end)) == after && (argument.end < |s| ==> !IsQuote(s[argument.end]))
    ensures IncludePath(s, r) && s[r.start] == quote && r.start < r.end
  {
    var text := [quote] + Doubled(path, quote) + [quote];
    assert s[r.start] == text[0];
    assert s[r.start + 1..r.end] == text[1..];
    if r.end < |s| {
      assert after != [] ==> s[r.end] == after[0];
    }
    SpelledIsQuoted(s, r.start + 1, r.end, r.start + 1, path, quote);
  }

  const KEYWORDS := {"IFDEF", "IFNDEF", "IF", "ELSEIF", "ELIF", "ELSE", "ENDIF", "IFEND", "DEFINE", "UNDEF", "I",
                     "INCLUDE"}

  /** Any other keyword is left alone. */
  lemma ForeignDirective(s: Bytes, keyword: Range, argument: Range, depth: nat)
    requires keyword.Within(|s|) && argument.Within(|s|) && UpperText(Slice(s, keyword)) !in KEYWORDS
    ensures ReadingOf(s, keyword, argument, depth) == Reading([], Done(Unsupported))
  {
    hide UpperText, Trim, IncludePath, ConditionReading;
  }
}
