/** Conditions of preprocessor directives: parsing to postfix code and three-valued evaluation. */
module ConditionExpressions {

  datatype Token =
    | TrueWord | FalseWord | DefinedWord | NotWord | AndWord | OrWord
    | LeftParen | RightParen
    | Identifier(name: string)

  datatype Op = Literal(value: bool) | Defined(symbol: string) | Not | And | Or

  type Code = seq<Op>

  datatype SyntaxFault = Malformed | TooDeep(observed: nat)

  datatype Parsed = Parsed(code: Code, position: nat) | Rejected(fault: SyntaxFault)

  // ---- The grammar

  /** `or` of `and`s, to the left as far as it goes. */
  function ParseOr(ts: seq<Token>, pos: nat, depth: nat, limit: nat): (r: Parsed)
    requires pos <= |ts|
    ensures r.Parsed? ==> pos < r.position <= |ts|
    decreases |ts| - pos, 5
  {
    var left := ParseAnd(ts, pos, depth, limit);
    if left.Rejected? then left else MoreOr(ts, left.position, depth, limit, left.code)
  }

  function MoreOr(ts: seq<Token>, pos: nat, depth: nat, limit: nat, code: Code): (r: Parsed)
    requires pos <= |ts|
    ensures r.Parsed? ==> pos <= r.position <= |ts|
    decreases |ts| - pos, 4
  {
    if pos < |ts| && ts[pos].OrWord? then
      var right := ParseAnd(ts, pos + 1, depth, limit);
      if right.Rejected? then right else MoreOr(ts, right.position, depth, limit, code + right.code + [Or])
    else Parsed(code, pos)
  }

  function ParseAnd(ts: seq<Token>, pos: nat, depth: nat, limit: nat): (r: Parsed)
    requires pos <= |ts|
    ensures r.Parsed? ==> pos < r.position <= |ts|
    decreases |ts| - pos, 3
  {
    var left := ParseNot(ts, pos, depth, limit);
    if left.Rejected? then left else MoreAnd(ts, left.position, depth, limit, left.code)
  }

  function MoreAnd(ts: seq<Token>, pos: nat, depth: nat, limit: nat, code: Code): (r: Parsed)
    requires pos <= |ts|
    ensures r.Parsed? ==> pos <= r.position <= |ts|
    decreases |ts| - pos, 2
  {
    if pos < |ts| && ts[pos].AndWord? then
      var right := ParseNot(ts, pos + 1, depth, limit);
      if right.Rejected? then right else MoreAnd(ts, right.position, depth, limit, code + right.code + [And])
    else Parsed(code, pos)
  }

  function ParseNot(ts: seq<Token>, pos: nat, depth: nat, limit: nat): (r: Parsed)
    requires pos <= |ts|
    ensures r.Parsed? ==> pos < r.position <= |ts|
    decreases |ts| - pos, 1
  {
    if pos < |ts| && ts[pos].NotWord? then
      if depth + 1 > limit then Rejected(TooDeep(depth + 1))
      else
        var inner := ParseNot(ts, pos + 1, depth + 1, limit);
        if inner.Rejected? then inner else Parsed(inner.code + [Not], inner.position)
    else ParsePrimary(ts, pos, depth, limit)
  }

  function ParsePrimary(ts: seq<Token>, pos: nat, depth: nat, limit: nat): (r: Parsed)
    requires pos <= |ts|
    ensures r.Parsed? ==> pos < r.position <= |ts|
    decreases |ts| - pos, 0
  {
    if pos == |ts| then Rejected(Malformed)
    else
      match ts[pos]
      case TrueWord => Parsed([Literal(true)], pos + 1)
      case FalseWord => Parsed([Literal(false)], pos + 1)
      case DefinedWord =>
        if pos + 3 < |ts| && ts[pos + 1].LeftParen? && ts[pos + 2].Identifier? && ts[pos + 3].RightParen?
        then Parsed([Defined(ts[pos + 2].name)], pos + 4)
        else Rejected(Malformed)
      case LeftParen =>
        if depth + 1 > limit then Rejected(TooDeep(depth + 1))
        else
          var inner := ParseOr(ts, pos + 1, depth + 1, limit);
          if inner.Rejected? then inner
          else if inner.position < |ts| && ts[inner.position].RightParen? then Parsed(inner.code, inner.position + 1)
          else Rejected(Malformed)
      case _ => Rejected(Malformed)
  }

  /** A whole condition: nothing may follow it. */
  function ParseCondition(ts: seq<Token>, limit: nat): Parsed {
    var r := ParseOr(ts, 0, 0, limit);
    if r.Parsed? && r.position != |ts| then Rejected(Malformed) else r
  }

  /** The recursive-descent parser, moving along the tokens. */
  class ExpressionParser {
    const tokens: seq<Token>
    const limit: nat
    var position: nat

    constructor (tokens: seq<Token>, limit: nat)
      ensures this.tokens == tokens && this.limit == limit && position == 0
    {
      this.tokens, this.limit, position := tokens, limit, 0;
    }

    ghost predicate Agrees(r: Parsed, spec: Parsed)
      reads this
    {
      && position <= |tokens|
      && (spec.Parsed? ==> r == spec && position == spec.position)
      && (spec.Rejected? ==> r == spec)
    }

    method Take(word: Token) returns (taken: bool)
      requires position <= |tokens|
      modifies this
      ensures taken == (old(position) < |tokens| && tokens[old(position)] == word)
      ensures position == old(position) + if taken then 1 else 0
    {
      taken := position < |tokens| && tokens[position] == word;
      if taken {
        position := position + 1;
      }
    }

    method Or(depth: nat) returns (r: Parsed)
      requires position <= |tokens|
      modifies this
      ensures Agrees(r, ParseOr(tokens, old(position), depth, limit))
      decreases |tokens| - position, 5
    {
      r := And(depth);
      if r.Rejected? {
        return;
      }
      var more := Take(OrWord);
      while more
        invariant r.Parsed? && position <= |tokens| && position > old(position)
        invariant !more ==> position == r.position
        invariant more ==> position == r.position + 1 && tokens[r.position].OrWord?
        invariant !more ==> !(position < |tokens| && tokens[position].OrWord?)
        invariant MoreOr(tokens, r.position, depth, limit, r.code) == ParseOr(tokens, old(position), depth, limit)
        decreases |tokens| - r.position
      {
        var right := And(depth);
        if right.Rejected? {
          return right;
        }
        r := Parsed(r.code + right.code + [Op.Or], right.position);
        more := Take(OrWord);
      }
    }

    method And(depth: nat) returns (r: Parsed)
      requires position <= |tokens|
      modifies this
      ensures Agrees(r, ParseAnd(tokens, old(position), depth, limit))
      decreases |tokens| - position, 3
    {
      r := Negation(depth);
      if r.Rejected? {
        return;
      }
      var more := Take(AndWord);
      while more
        invariant r.Parsed? && position <= |tokens| && position > old(position)
        invariant !more ==> position == r.position
        invariant more ==> position == r.position + 1 && tokens[r.position].AndWord?
        invariant !more ==> !(position < |tokens| && tokens[position].AndWord?)
        invariant MoreAnd(tokens, r.position, depth, limit, r.code) == ParseAnd(tokens, old(position), depth, limit)
        decreases |tokens| - r.position
      {
        var right := Negation(depth);
        if right.Rejected? {
          return right;
        }
        r := Parsed(r.code + right.code + [Op.And], right.position);
        more := Take(AndWord);
      }
    }

    method Negation(depth: nat) returns (r: Parsed)
      requires position <= |tokens|
      modifies this
      ensures Agrees(r, ParseNot(tokens, old(position), depth, limit))
      decreases |tokens| - position, 1
    {
      var negated := Take(NotWord);
      if negated {
        if depth + 1 > limit {
          return Rejected(TooDeep(depth + 1));
        }
        r := Negation(depth + 1);
        if r.Parsed? {
          r := Parsed(r.code + [Not], r.position);
        }
        return;
      }
      r := Primary(depth);
    }

    method Primary(depth: nat) returns (r: Parsed)
      requires position <= |tokens|
      modifies this
      ensures Agrees(r, ParsePrimary(tokens, old(position), depth, limit))
      decreases |tokens| - position, 0
    {
      if position == |tokens| {
        return Rejected(Malformed);
      }
      var token := tokens[position];
      position := position + 1;
      match token {
        case TrueWord => r := Parsed([Literal(true)], position);
        case FalseWord => r := Parsed([Literal(false)], position);
        case DefinedWord =>
          var left := Take(LeftParen);
          if !left || position == |tokens| || !tokens[position].Identifier? {
            return Rejected(Malformed);
          }
          var name := tokens[position].name;
          position := position + 1;
          var right := Take(RightParen);
          r := if right then Parsed([Defined(name)], position) else Rejected(Malformed);
        case LeftParen =>
          if depth + 1 > limit {
            return Rejected(TooDeep(depth + 1));
          }
          r := Or(depth + 1);
          if r.Parsed? {
            var right := Take(RightParen);
            r := if right then Parsed(r.code, position) else Rejected(Malformed);
          }
        case _ => r := Rejected(Malformed);
      }
    }
  }

  method ParseTokens(tokens: seq<Token>, limit: nat) returns (r: Parsed)
    ensures r == ParseCondition(tokens, limit)
  {
    var parser := new ExpressionParser(tokens, limit);
    r := parser.Or(0);
    if r.Parsed? && parser.position != |tokens| {
      r := Rejected(Malformed);
    }
  }

  // ---- Condition trees

  datatype Condition =
    | Constant(value: bool)
    | Symbol(name: string)
    | Negated(inner: Condition)
    | Both(left: Condition, right: Condition)
    | Either(left: Condition, right: Condition)

  function Postfix(c: Condition): Code {
    match c
    case Constant(v) => [Literal(v)]
    case Symbol(n) => [Defined(n)]
    case Negated(x) => Postfix(x) + [Not]
    case Both(l, r) => Postfix(l) + Postfix(r) + [And]
    case Either(l, r) => Postfix(l) + Postfix(r) + [Or]
  }

  // ---- Printing with as few parentheses as precedence allows

  function PrintOr(c: Condition): seq<Token>
    decreases c, 3
  {
    if c.Either? then PrintOr(c.left) + [OrWord] + PrintAnd(c.right) else PrintAnd(c)
  }

  function PrintAnd(c: Condition): seq<Token>
    decreases c, 2
  {
    if c.Both? then PrintAnd(c.left) + [AndWord] + PrintNot(c.right) else PrintNot(c)
  }

  function PrintNot(c: Condition): seq<Token>
    decreases c, 1
  {
    match c
    case Negated(x) => [NotWord] + PrintNot(x)
    case Constant(v) => [if v then TrueWord else FalseWord]
    case Symbol(n) => [DefinedWord, LeftParen, Identifier(n), RightParen]
    case Both(l, r) => [LeftParen] + (PrintAnd(l) + [AndWord] + PrintNot(r)) + [RightParen]
    case Either(l, r) => [LeftParen] + (PrintOr(l) + [OrWord] + PrintAnd(r)) + [RightParen]
  }

  /** How deep `not`s and parentheses nest in the printed form. */
  function DepthOr(c: Condition): nat
    decreases c, 3
  {
    if c.Either? then Max(DepthOr(c.left), DepthAnd(c.right)) else DepthAnd(c)
  }

  function DepthAnd(c: Condition): nat
    decreases c, 2
  {
    if c.Both? then Max(DepthAnd(c.left), DepthNot(c.right)) else DepthNot(c)
  }

  function DepthNot(c: Condition): nat
    decreases c, 1
  {
    match c
    case Negated(x) => 1 + DepthNot(x)
    case Constant(_) => 0
    case Symbol(_) => 0
    case Both(l, r) => 1 + Max(DepthAnd(l), DepthNot(r))
    case Either(l, r) => 1 + Max(DepthOr(l), DepthAnd(r))
  }

  function Max(a: nat, b: nat): nat {
    if a < b then b else a
  }

  // ---- The parser inverts the printer

  /** `part` stands in `ts` from `pos` on. */
  ghost predicate At(ts: seq<Token>, pos: nat, part: seq<Token>) {
    pos + |part| <= |ts| && ts[pos..pos + |part|] == part
  }

  lemma AtSplit(ts: seq<Token>, pos: nat, a: seq<Token>, b: seq<Token>)
    requires At(ts, pos, a + b)
    ensures At(ts, pos, a) && At(ts, pos + |a|, b)
  {
    var whole := ts[pos..pos + |a + b|];
    assert whole[..|a|] == a && whole[|a|..] == b;
    assert ts[pos..pos + |a|] == whole[..|a|];
    assert ts[pos + |a|..pos + |a| + |b|] == whole[|a|..];
  }

  lemma AtToken(ts: seq<Token>, pos: nat, t: Token)
    requires At(ts, pos, [t])
    ensures pos < |ts| && ts[pos] == t
  {
    assert ts[pos] == ts[pos..pos + 1][0];
  }

  lemma {:induction false} ParsesNot(c: Condition, ts: seq<Token>, pos: nat, depth: nat, limit: nat)
    requires At(ts, pos, PrintNot(c)) && depth <= limit
    ensures ParseNot(ts, pos, depth, limit)
            == if depth + DepthNot(c) <= limit then Parsed(Postfix(c), pos + |PrintNot(c)|)
               else Rejected(TooDeep(limit + 1))
    decreases c, 3
  {
    match c
    case Negated(x) =>
      AtSplit(ts, pos, [NotWord], PrintNot(x));
      AtToken(ts, pos, NotWord);
      if depth + 1 <= limit {
        ParsesNot(x, ts, pos + 1, depth + 1, limit);
      }
    case Constant(v) => AtToken(ts, pos, if v then TrueWord else FalseWord);
    case Symbol(n) =>
      var part := [DefinedWord, LeftParen, Identifier(n), RightParen];
      assert ts[pos..pos + 4] == part;
      assert ts[pos] == part[0] && ts[pos + 1] == part[1] && ts[pos + 2] == part[2] && ts[pos + 3] == part[3];
    case Both(_, _) => ParsesGroup(c, ts, pos, depth, limit);
    case Either(_, _) => ParsesGroup(c, ts, pos, depth, limit);
  }

  lemma GroupForm(c: Condition)
    requires c.Both? || c.Either?
    ensures PrintNot(c) == [LeftParen] + PrintOr(c) + [RightParen] && DepthNot(c) == 1 + DepthOr(c)
  {
    if c.Both? {
      assert PrintOr(c) == PrintAnd(c) == PrintAnd(c.left) + [AndWord] + PrintNot(c.right);
      assert DepthOr(c) == DepthAnd(c) == Max(DepthAnd(c.left), DepthNot(c.right));
    } else {
      assert PrintOr(c) == PrintOr(c.left) + [OrWord] + PrintAnd(c.right);
      assert DepthOr(c) == Max(DepthOr(c.left), DepthAnd(c.right));
    }
  }

  /** A condition in parentheses. */
  lemma {:induction false} ParsesGroup(c: Condition, ts: seq<Token>, pos: nat, depth: nat, limit: nat)
    requires (c.Both? || c.Either?) && At(ts, pos, PrintNot(c)) && depth <= limit
    ensures ParseNot(ts, pos, depth, limit)
            == if depth + DepthNot(c) <= limit then Parsed(Postfix(c), pos + |PrintNot(c)|)
               else Rejected(TooDeep(limit + 1))
    decreases c, 2
  {
    hide PrintNot, DepthNot, Postfix, MoreAnd, MoreOr, ParseAnd, PrintAnd, DepthAnd;
    var inner := PrintOr(c);
    GroupForm(c);
    AtSplit(ts, pos, [LeftParen] + inner, [RightParen]);
    AtSplit(ts, pos, [LeftParen], inner);
    AtToken(ts, pos, LeftParen);
    AtToken(ts, pos + 1 + |inner|, RightParen);
    if depth + 1 <= limit {
      if c.Both? {
        ParsesBoth(c, ts, pos + 1, depth + 1, limit);
      } else {
        ParsesEither(c, ts, pos + 1, depth + 1, limit);
      }
      GroupCloses(c, ts, pos + 1, depth + 1, limit);
    }
  }

  /** At a closing parenthesis neither loop goes on. */
  lemma GroupCloses(c: Condition, ts: seq<Token>, pos: nat, depth: nat, limit: nat)
    requires (c.Both? || c.Either?) && pos + |PrintOr(c)| < |ts| && ts[pos + |PrintOr(c)|].RightParen?
    requires c.Both? ==>
               ParseAnd(ts, pos, depth, limit)
               == if depth + DepthAnd(c) <= limit then MoreAnd(ts, pos + |PrintAnd(c)|, depth, limit, Postfix(c))
                  else Rejected(TooDeep(limit + 1))
    requires c.Either? ==>
               ParseOr(ts, pos, depth, limit)
               == if depth + DepthOr(c) <= limit then MoreOr(ts, pos + |PrintOr(c)|, depth, limit, Postfix(c))
                  else Rejected(TooDeep(limit + 1))
    ensures ParseOr(ts, pos, depth, limit)
            == if depth + DepthOr(c) <= limit then Parsed(Postfix(c), pos + |PrintOr(c)|)
               else Rejected(TooDeep(limit + 1))
  {
    hide ParseAnd, PrintNot, Postfix, DepthNot;
  }

  lemma BothParts(c: Condition)
    requires c.Both?
    ensures PrintAnd(c) == PrintAnd(c.left) + [AndWord] + PrintNot(c.right)
    ensures Postfix(c) == Postfix(c.left) + Postfix(c.right) + [And]
    ensures DepthAnd(c) == Max(DepthAnd(c.left), DepthNot(c.right))
  {}

  lemma EitherParts(c: Condition)
    requires c.Either?
    ensures PrintOr(c) == PrintOr(c.left) + [OrWord] + PrintAnd(c.right)
    ensures Postfix(c) == Postfix(c.left) + Postfix(c.right) + [Or]
    ensures DepthOr(c) == Max(DepthOr(c.left), DepthAnd(c.right))
  {}

  lemma {:induction false} ParsesBoth(c: Condition, ts: seq<Token>, pos: nat, depth: nat, limit: nat)
    requires c.Both? && At(ts, pos, PrintAnd(c)) && depth <= limit
    ensures ParseAnd(ts, pos, depth, limit)
            == if depth + DepthAnd(c) <= limit then MoreAnd(ts, pos + |PrintAnd(c)|, depth, limit, Postfix(c))
               else Rejected(TooDeep(limit + 1))
    decreases c, 1
  {
    hide ParseAnd, ParseNot, PrintAnd, PrintNot, Postfix, DepthAnd, DepthNot, At;
    var front, last := PrintAnd(c.left), PrintNot(c.right);
    BothParts(c);
    AtSplit(ts, pos, front + [AndWord], last);
    AtSplit(ts, pos, front, [AndWord]);
    AtToken(ts, pos + |front|, AndWord);
    ParsesAnd(c.left, ts, pos, depth, limit);
    if depth + DepthAnd(c.left) <= limit {
      ParsesNot(c.right, ts, pos + |front| + 1, depth, limit);
    }
  }

  lemma {:induction false} ParsesEither(c: Condition, ts: seq<Token>, pos: nat, depth: nat, limit: nat)
    requires c.Either? && At(ts, pos, PrintOr(c)) && depth <= limit
    requires pos + |PrintOr(c)| < |ts| ==> !ts[pos + |PrintOr(c)|].AndWord?
    ensures ParseOr(ts, pos, depth, limit)
            == if depth + DepthOr(c) <= limit then MoreOr(ts, pos + |PrintOr(c)|, depth, limit, Postfix(c))
               else Rejected(TooDeep(limit + 1))
    decreases c, 1
  {
    hide ParseOr, ParseAnd, PrintOr, PrintAnd, Postfix, DepthOr, DepthAnd, At;
    var front, last := PrintOr(c.left), PrintAnd(c.right);
    EitherParts(c);
    AtSplit(ts, pos, front + [OrWord], last);
    AtSplit(ts, pos, front, [OrWord]);
    AtToken(ts, pos + |front|, OrWord);
    ParsesOr(c.left, ts, pos, depth, limit);
    if depth + DepthOr(c.left) <= limit {
      ParsesAnd(c.right, ts, pos + |front| + 1, depth, limit);
    }
  }

  /** After a printed conjunction the parser stands behind it, ready for another `and`. */
  lemma {:induction false} ParsesAnd(c: Condition, ts: seq<Token>, pos: nat, depth: nat, limit: nat)
    requires At(ts, pos, PrintAnd(c)) && depth <= limit
    ensures ParseAnd(ts, pos, depth, limit)
            == if depth + DepthAnd(c) <= limit then MoreAnd(ts, pos + |PrintAnd(c)|, depth, limit, Postfix(c))
               else Rejected(TooDeep(limit + 1))
    decreases c, 4
  {
    hide ParseNot, PrintNot, Postfix, DepthNot;
    if c.Both? {
      ParsesBoth(c, ts, pos, depth, limit);
    } else {
      ParsesNot(c, ts, pos, depth, limit);
    }
  }

  lemma {:induction false} ParsesOr(c: Condition, ts: seq<Token>, pos: nat, depth: nat, limit: nat)
    requires At(ts, pos, PrintOr(c)) && depth <= limit
    requires pos + |PrintOr(c)| < |ts| ==> !ts[pos + |PrintOr(c)|].AndWord?
    ensures ParseOr(ts, pos, depth, limit)
            == if depth + DepthOr(c) <= limit then MoreOr(ts, pos + |PrintOr(c)|, depth, limit, Postfix(c))
               else Rejected(TooDeep(limit + 1))
    decreases c, 5
  {
    hide ParseAnd, PrintAnd, Postfix, DepthAnd;
    if c.Either? {
      ParsesEither(c, ts, pos, depth, limit);
    } else {
      ParsesAnd(c, ts, pos, depth, limit);
    }
  }

  /** Parsing a printed condition gives its postfix code exactly when it nests no deeper than the limit. */
  lemma ParserInvertsPrinter(c: Condition, limit: nat)
    ensures ParseCondition(PrintOr(c), limit)
            == if DepthOr(c) <= limit then Parsed(Postfix(c), |PrintOr(c)|) else Rejected(TooDeep(limit + 1))
  {
    var ts := PrintOr(c);
    assert ts[0..|ts|] == ts;
    ParsesOr(c, ts, 0, 0, limit);
  }

  // ---- Everything the parser accepts is the postfix code of a tree

  lemma {:induction false} OrTree(ts: seq<Token>, pos: nat, depth: nat, limit: nat) returns (c: Condition)
    requires pos <= |ts| && ParseOr(ts, pos, depth, limit).Parsed?
    ensures Postfix(c) == ParseOr(ts, pos, depth, limit).code
    decreases |ts| - pos, 5
  {
    var left := ParseAnd(ts, pos, depth, limit);
    var l := AndTree(ts, pos, depth, limit);
    c := MoreOrTree(ts, left.position, depth, limit, l);
  }

  lemma {:induction false} MoreOrTree(ts: seq<Token>, pos: nat, depth: nat, limit: nat, l: Condition)
    returns (c: Condition)
    requires pos <= |ts| && MoreOr(ts, pos, depth, limit, Postfix(l)).Parsed?
    ensures Postfix(c) == MoreOr(ts, pos, depth, limit, Postfix(l)).code
    decreases |ts| - pos, 4
  {
    if pos < |ts| && ts[pos].OrWord? {
      var r := AndTree(ts, pos + 1, depth, limit);
      c := MoreOrTree(ts, ParseAnd(ts, pos + 1, depth, limit).position, depth, limit, Either(l, r));
    } else {
      c := l;
    }
  }

  lemma {:induction false} AndTree(ts: seq<Token>, pos: nat, depth: nat, limit: nat) returns (c: Condition)
    requires pos <= |ts| && ParseAnd(ts, pos, depth, limit).Parsed?
    ensures Postfix(c) == ParseAnd(ts, pos, depth, limit).code
    decreases |ts| - pos, 3
  {
    var left := ParseNot(ts, pos, depth, limit);
    var l := NotTree(ts, pos, depth, limit);
    c := MoreAndTree(ts, left.position, depth, limit, l);
  }

  lemma {:induction false} MoreAndTree(ts: seq<Token>, pos: nat, depth: nat, limit: nat, l: Condition)
    returns (c: Condition)
    requires pos <= |ts| && MoreAnd(ts, pos, depth, limit, Postfix(l)).Parsed?
    ensures Postfix(c) == MoreAnd(ts, pos, depth, limit, Postfix(l)).code
    decreases |ts| - pos, 2
  {
    if pos < |ts| && ts[pos].AndWord? {
      var r := NotTree(ts, pos + 1, depth, limit);
      c := MoreAndTree(ts, ParseNot(ts, pos + 1, depth, limit).position, depth, limit, Both(l, r));
    } else {
      c := l;
    }
  }

  lemma {:induction false} NotTree(ts: seq<Token>, pos: nat, depth: nat, limit: nat) returns (c: Condition)
    requires pos <= |ts| && ParseNot(ts, pos, depth, limit).Parsed?
    ensures Postfix(c) == ParseNot(ts, pos, depth, limit).code
    decreases |ts| - pos, 1
  {
    if ts[pos].NotWord? {
      var x := NotTree(ts, pos + 1, depth + 1, limit);
      c := Negated(x);
    } else {
      match ts[pos] {
        case TrueWord => c := Constant(true);
        case FalseWord => c := Constant(false);
        case DefinedWord => c := Symbol(ts[pos + 2].name);
        case LeftParen => c := OrTree(ts, pos + 1, depth + 1, limit);
      }
    }
  }

  // ---- Evaluation

  datatype Tri = True | False | Unknown

  function Negate(a: Tri): Tri {
    match a case True => False case False => True case Unknown => Unknown
  }

  function Conjoin(left: Tri, right: Tri): Tri {
    match left
    case False => False
    case True => right
    case Unknown => if right.False? then False else Unknown
  }

  function Disjoin(left: Tri, right: Tri): Tri {
    match left
    case True => True
    case False => right
    case Unknown => if right.True? then True else Unknown
  }

  datatype Completeness = Complete | Partial

  /** What is known about preprocessor symbols. */
  datatype Symbols = Symbols(values: map<string, bool>, completeness: Completeness) {
    function State(name: string): (state: Tri)
      ensures state == True <==> name in values && values[name]
      ensures state == False <==> if name in values then !values[name] else completeness == Complete
    {
      if name in values then (if values[name] then True else False)
      else if completeness.Complete? then False else Unknown
    }

    function Set(name: string, defined: bool): (symbols: Symbols)
      ensures symbols.State(name) == (if defined then True else False)
      ensures symbols.completeness == completeness && forall n :: n != name ==> symbols.State(n) == State(n)
    {
      this.(values := values[name := defined])
    }
  }

  /** The meaning of a condition, by its structure. */
  function Meaning(c: Condition, symbols: Symbols): Tri {
    match c
    case Constant(v) => if v then True else False
    case Symbol(n) => symbols.State(n)
    case Negated(x) => Negate(Meaning(x, symbols))
    case Both(l, r) => Conjoin(Meaning(l, symbols), Meaning(r, symbols))
    case Either(l, r) => Disjoin(Meaning(l, symbols), Meaning(r, symbols))
  }

  // ---- What the three values mean

  /** Whether the condition holds when exactly these names are defined. */
  ghost predicate Holds(c: Condition, defined: iset<string>) {
    match c
    case Constant(v) => v
    case Symbol(n) => n in defined
    case Negated(x) => !Holds(x, defined)
    case Both(l, r) => Holds(l, defined) && Holds(r, defined)
    case Either(l, r) => Holds(l, defined) || Holds(r, defined)
  }

  /** What is known makes the condition true. */
  ghost predicate SurelyTrue(c: Condition, symbols: Symbols) {
    match c
    case Constant(v) => v
    case Symbol(n) => n in symbols.values && symbols.values[n]
    case Negated(x) => SurelyFalse(x, symbols)
    case Both(l, r) => SurelyTrue(l, symbols) && SurelyTrue(r, symbols)
    case Either(l, r) => SurelyTrue(l, symbols) || SurelyTrue(r, symbols)
  }

  /** What is known makes the condition false. */
  ghost predicate SurelyFalse(c: Condition, symbols: Symbols) {
    match c
    case Constant(v) => !v
    case Symbol(n) => if n in symbols.values then !symbols.values[n] else symbols.completeness == Complete
    case Negated(x) => SurelyTrue(x, symbols)
    case Both(l, r) => SurelyFalse(l, symbols) || SurelyFalse(r, symbols)
    case Either(l, r) => SurelyFalse(l, symbols) && SurelyFalse(r, symbols)
  }

  /** The value says what is known, and nothing more. */
  ghost predicate Says(value: Tri, c: Condition, symbols: Symbols) {
    (value == True <==> SurelyTrue(c, symbols)) && (value == False <==> SurelyFalse(c, symbols))
  }

  lemma {:induction false} MeaningSays(c: Condition, symbols: Symbols)
    ensures Says(Meaning(c, symbols), c, symbols)
    decreases c
  {
    match c
    case Constant(_) =>
    case Symbol(_) =>
    case Negated(x) => MeaningSays(x, symbols);
    case Both(l, r) => MeaningSays(l, symbols); MeaningSays(r, symbols);
    case Either(l, r) => MeaningSays(l, symbols); MeaningSays(r, symbols);
  }

  /** The names that were set to true, and for the others nothing or anything. */
  ghost predicate Possible(symbols: Symbols, defined: iset<string>) {
    && (forall n :: n in symbols.values ==> (n in defined <==> symbols.values[n]))
    && (symbols.completeness == Complete ==> forall n :: n !in symbols.values ==> n !in defined)
  }

  /** What is known to be true holds, and what is known to be false fails, for every possible set of names. */
  lemma {:induction false} SurelyHolds(c: Condition, symbols: Symbols, defined: iset<string>)
    requires Possible(symbols, defined)
    ensures SurelyTrue(c, symbols) ==> Holds(c, defined)
    ensures SurelyFalse(c, symbols) ==> !Holds(c, defined)
    ensures symbols.completeness == Complete ==> (SurelyTrue(c, symbols) <==> !SurelyFalse(c, symbols))
    decreases c
  {
    match c
    case Constant(_) =>
    case Symbol(_) =>
    case Negated(x) => SurelyHolds(x, symbols, defined);
    case Both(l, r) => SurelyHolds(l, symbols, defined); SurelyHolds(r, symbols, defined);
    case Either(l, r) => SurelyHolds(l, symbols, defined); SurelyHolds(r, symbols, defined);
  }

  /** In a complete environment a condition is two-valued: it holds or fails for the names that were set to true. */
  lemma CompleteValue(c: Condition, symbols: Symbols)
    requires symbols.completeness == Complete
    ensures Evaluate(Postfix(c), symbols)
            == if Holds(c, iset n | n in symbols.values && symbols.values[n]) then True else False
  {
    var defined := iset n | n in symbols.values && symbols.values[n];
    SurelyHolds(c, symbols, defined);
    PostfixSays(c, symbols);
  }

  /** Postfix code is evaluated to what is known of its tree. */
  lemma PostfixSays(c: Condition, symbols: Symbols)
    ensures Says(Evaluate(Postfix(c), symbols), c, symbols)
  {
    RunPostfix(c, symbols, []);
    MeaningSays(c, symbols);
  }

  // ---- The evaluator

  /** The top of a stack; an empty stack gives `Unknown`. */
  function Top(stack: seq<Tri>): Tri {
    if stack == [] then Unknown else stack[|stack| - 1]
  }

  function Pop(stack: seq<Tri>): seq<Tri> {
    if stack == [] then [] else stack[..|stack| - 1]
  }

  function Perform(op: Op, symbols: Symbols, stack: seq<Tri>): seq<Tri> {
    match op
    case Literal(v) => stack + [if v then True else False]
    case Defined(n) => stack + [symbols.State(n)]
    case Not => Pop(stack) + [Negate(Top(stack))]
    case And => Pop(Pop(stack)) + [Conjoin(Top(Pop(stack)), Top(stack))]
    case Or => Pop(Pop(stack)) + [Disjoin(Top(Pop(stack)), Top(stack))]
  }

  function Run(code: Code, symbols: Symbols, stack: seq<Tri>): seq<Tri> {
    if code == [] then stack else Run(code[1..], symbols, Perform(code[0], symbols, stack))
  }

  function Evaluate(code: Code, symbols: Symbols): Tri {
    Top(Run(code, symbols, []))
  }

  /** The evaluator's loop over its value stack. */
  method EvaluateCode(code: Code, symbols: Symbols) returns (value: Tri)
    ensures value == Evaluate(code, symbols)
    ensures forall c :: code == Postfix(c) ==> Says(value, c, symbols)
  {
    forall c | code == Postfix(c) ensures Says(Evaluate(code, symbols), c, symbols) {
      PostfixSays(c, symbols);
    }
    var values := [];
    var i := 0;
    while i < |code|
      invariant 0 <= i <= |code| && Run(code[i..], symbols, values) == Run(code, symbols, [])
    {
      match code[i] {
        case Literal(v) => values := values + [if v then True else False];
        case Defined(n) => values := values + [symbols.State(n)];
        case Not =>
          var x := Top(values);
          values := Pop(values) + [Negate(x)];
        case And =>
          var right := Top(values);
          values := Pop(values);
          var left := Top(values);
          values := Pop(values) + [Conjoin(left, right)];
        case Or =>
          var right := Top(values);
          values := Pop(values);
          var left := Top(values);
          values := Pop(values) + [Disjoin(left, right)];
      }
      assert code[i..][1..] == code[i + 1..];
      i := i + 1;
    }
    value := Top(values);
  }

  lemma {:induction false} RunAppend(a: Code, b: Code, symbols: Symbols, stack: seq<Tri>)
    ensures Run(a + b, symbols, stack) == Run(b, symbols, Run(a, symbols, stack))
    decreases |a|
  {
    if a == [] {
      assert a + b == b;
    } else {
      assert (a + b)[1..] == a[1..] + b;
      RunAppend(a[1..], b, symbols, Perform(a[0], symbols, stack));
    }
  }

  /** Postfix code leaves the meaning of its tree on the stack and touches nothing below it. */
  lemma {:induction false} RunPostfix(c: Condition, symbols: Symbols, stack: seq<Tri>)
    ensures Run(Postfix(c), symbols, stack) == stack + [Meaning(c, symbols)]
    decreases c, 1
  {
    match c
    case Constant(v) => assert Run(Postfix(c)[1..], symbols, Perform(Literal(v), symbols, stack))
        == stack + [Meaning(c, symbols)];
    case Symbol(n) => assert Run(Postfix(c)[1..], symbols, Perform(Defined(n), symbols, stack))
        == stack + [Meaning(c, symbols)];
    case Negated(x) =>
      RunAppend(Postfix(x), [Not], symbols, stack);
      RunPostfix(x, symbols, stack);
      RunOne(Not, symbols, stack + [Meaning(x, symbols)]);
    case Both(_, _) => RunBinary(c, symbols, stack);
    case Either(_, _) => RunBinary(c, symbols, stack);
  }

  lemma RunOne(op: Op, symbols: Symbols, stack: seq<Tri>)
    ensures Run([op], symbols, stack) == Perform(op, symbols, stack)
  {
    assert [op][1..] == [];
  }

  lemma {:induction false} RunBinary(c: Condition, symbols: Symbols, stack: seq<Tri>)
    requires c.Both? || c.Either?
    ensures Run(Postfix(c), symbols, stack) == stack + [Meaning(c, symbols)]
    decreases c, 0
  {
    var op := if c.Both? then And else Or;
    var l, r := Meaning(c.left, symbols), Meaning(c.right, symbols);
    RunAppend(Postfix(c.left) + Postfix(c.right), [op], symbols, stack);
    RunAppend(Postfix(c.left), Postfix(c.right), symbols, stack);
    RunPostfix(c.left, symbols, stack);
    RunPostfix(c.right, symbols, stack + [l]);
    RunOne(op, symbols, stack + [l] + [r]);
  }

  /** For every accepted condition the stack evaluation says what is known of a tree. */
  lemma EvaluationIsMeaning(ts: seq<Token>, limit: nat, symbols: Symbols) returns (c: Condition)
    requires ParseCondition(ts, limit).Parsed?
    ensures ParseCondition(ts, limit).code == Postfix(c)
    ensures Says(Evaluate(ParseCondition(ts, limit).code, symbols), c, symbols)
  {
    c := OrTree(ts, 0, 0, limit);
    PostfixSays(c, symbols);
  }

  // ---- The empty-stack fallback

  /** How the code changes the number of values; `false` when some operation finds too few. */
  ghost predicate Balanced(code: Code, n: nat)
    decreases |code|
  {
    if code == [] then true
    else
      match code[0]
      case Literal(_) => Balanced(code[1..], n + 1)
      case Defined(_) => Balanced(code[1..], n + 1)
      case Not => n >= 1 && Balanced(code[1..], n)
      case And => n >= 2 && Balanced(code[1..], n - 1)
      case Or => n >= 2 && Balanced(code[1..], n - 1)
  }

  lemma BalancedFirst(op: Op, rest: Code, n: nat)
    requires match op
             case Literal(_) => Balanced(rest, n + 1)
             case Defined(_) => Balanced(rest, n + 1)
             case Not => n >= 1 && Balanced(rest, n)
             case And => n >= 2 && Balanced(rest, n - 1)
             case Or => n >= 2 && Balanced(rest, n - 1)
    ensures Balanced([op] + rest, n)
  {
    assert ([op] + rest)[1..] == rest;
  }

  lemma {:induction false} PostfixBalanced(c: Condition, rest: Code, n: nat)
    requires Balanced(rest, n + 1)
    ensures Balanced(Postfix(c) + rest, n)
    decreases c
  {
    hide Balanced;
    match c
    case Constant(v) => BalancedFirst(Literal(v), rest, n);
    case Symbol(s) => BalancedFirst(Defined(s), rest, n);
    case Negated(x) =>
      BalancedFirst(Not, rest, n + 1);
      PostfixBalanced(x, [Not] + rest, n);
      assert Postfix(x) + ([Not] + rest) == Postfix(c) + rest;
    case Both(l, r) =>
      BalancedFirst(And, rest, n + 2);
      PostfixBalanced(r, [And] + rest, n + 1);
      PostfixBalanced(l, Postfix(r) + ([And] + rest), n);
      assert Postfix(l) + (Postfix(r) + ([And] + rest)) == Postfix(c) + rest;
    case Either(l, r) =>
      BalancedFirst(Or, rest, n + 2);
      PostfixBalanced(r, [Or] + rest, n + 1);
      PostfixBalanced(l, Postfix(r) + ([Or] + rest), n);
      assert Postfix(l) + (Postfix(r) + ([Or] + rest)) == Postfix(c) + rest;
  }

  /** No operation of an accepted condition ever finds the value stack too short, and one value is left at the end. */
  lemma FallbackNeverUsed(ts: seq<Token>, limit: nat, symbols: Symbols)
    requires ParseCondition(ts, limit).Parsed?
    ensures Balanced(ParseCondition(ts, limit).code, 0) && |Run(ParseCondition(ts, limit).code, symbols, [])| == 1
  {
    var c := OrTree(ts, 0, 0, limit);
    PostfixBalanced(c, [], 0);
    assert Postfix(c) + [] == Postfix(c);
    RunPostfix(c, symbols, []);
  }

  // ---- Knowing more symbols

  /** `b` decides whatever `a` decides, in the same way. */
  predicate Below(a: Tri, b: Tri) {
    a.Unknown? || a == b
  }

  ghost predicate AllBelow(a: seq<Tri>, b: seq<Tri>) {
    |a| == |b| && forall i :: 0 <= i < |a| ==> Below(a[i], b[i])
  }

  /** `b` knows every symbol that `a` knows, with the same value. */
  ghost predicate Extends(a: Symbols, b: Symbols) {
    && (forall n :: n in a.values ==> n in b.values && b.values[n] == a.values[n])
    && (a.completeness.Partial?
        || (b.completeness.Complete? && forall n :: n in b.values && n !in a.values ==> !b.values[n]))
  }

  lemma {:induction false} RunBelow(code: Code, a: Symbols, b: Symbols, s: seq<Tri>, t: seq<Tri>)
    requires Extends(a, b) && AllBelow(s, t)
    ensures AllBelow(Run(code, a, s), Run(code, b, t))
    decreases |code|
  {
    if code != [] {
      assert AllBelow(Perform(code[0], a, s), Perform(code[0], b, t));
      RunBelow(code[1..], a, b, Perform(code[0], a, s), Perform(code[0], b, t));
    }
  }

  /** A decided condition stays decided the same way when more symbols are known. */
  lemma EvaluateBelow(code: Code, a: Symbols, b: Symbols)
    requires Extends(a, b)
    ensures Below(Evaluate(code, a), Evaluate(code, b))
  {
    RunBelow(code, a, b, [], []);
  }

  lemma SetExtends(a: Symbols, b: Symbols, name: string, defined: bool)
    requires Extends(a, b)
    ensures Extends(a.Set(name, defined), b.Set(name, defined))
  {}
}
