/** Splitting a source into plain text and directives. */
module DirectiveLexer {
  import opened PascalSyntax
  import opened ByteText
  import opened Preprocessor
  import opened Directives

  const OPEN: byte := 123
  const CLOSE: byte := 125
  const DOLLAR: byte := 36
  const STAR: byte := 42
  const SLASH: byte := 47

  // ---- Strings, comments and directives

  /** Behind a string whose body goes on at `i`; a doubled quote does not end it. */
  function StringEnd(s: Bytes, i: nat, quote: byte): (end: nat)
    requires i <= |s|
    ensures i <= end <= |s|
    decreases |s| - i
  {
    if i == |s| then i
    else if s[i] != quote then StringEnd(s, i + 1, quote)
    else if i + 1 < |s| && s[i + 1] == quote then StringEnd(s, i + 2, quote)
    else i + 1
  }

  function NextBreak(s: Bytes, i: nat): (at: nat)
    requires i <= |s|
    ensures i <= at <= |s|
    decreases |s| - i
  {
    if i == |s| || IsBreak(s[i]) then i else NextBreak(s, i + 1)
  }

  /** The first closing brace from `i` on. */
  function NextClose(s: Bytes, i: nat): (at: Option<nat>)
    ensures match at
            case Some(k) => i <= k < |s| && s[k] == CLOSE && forall j :: i <= j < k ==> s[j] != CLOSE
            case None => forall j :: i <= j < |s| ==> s[j] != CLOSE
    decreases |s| - i
  {
    if i >= |s| then None else if s[i] == CLOSE then Some(i) else NextClose(s, i + 1)
  }

  predicate StarParenAt(s: Bytes, k: nat) {
    k + 1 < |s| && s[k] == STAR && s[k + 1] == RIGHT
  }

  function NextStarParen(s: Bytes, i: nat): (at: Option<nat>)
    ensures match at
            case Some(k) => i <= k && StarParenAt(s, k) && forall j :: i <= j < k ==> !StarParenAt(s, j)
            case None => forall j :: i <= j ==> !StarParenAt(s, j)
    decreases |s| - i
  {
    if i + 1 >= |s| then None else if StarParenAt(s, i) then Some(i) else NextStarParen(s, i + 1)
  }

  predicate BracesAt(s: Bytes, i: nat) {
    i + 1 < |s| && s[i] == OPEN && s[i + 1] == DOLLAR
  }

  predicate StarsAt(s: Bytes, i: nat) {
    i + 2 < |s| && s[i] == LEFT && s[i + 1] == STAR && s[i + 2] == DOLLAR
  }

  predicate DirectiveStarts(s: Bytes, i: nat) {
    BracesAt(s, i) || StarsAt(s, i)
  }

  /** Behind the string, comment or byte at `i`, where no directive starts. */
  function LexemeEnd(s: Bytes, i: nat): (end: nat)
    requires i < |s|
    ensures i < end <= |s|
  {
    if IsQuote(s[i]) then StringEnd(s, i + 1, s[i])
    else if i + 1 < |s| && s[i] == SLASH && s[i + 1] == SLASH then NextBreak(s, i + 2)
    else if s[i] == OPEN then
      var close := NextClose(s, i + 1);
      if close.Some? then close.value + 1 else |s|
    else if i + 1 < |s| && s[i] == LEFT && s[i + 1] == STAR then
      var close := NextStarParen(s, i + 2);
      if close.Some? then close.value + 2 else |s|
    else i + 1
  }

  /** The body of the directive at `i`, unless nothing closes it. */
  function DirectiveBody(s: Bytes, i: nat): (body: Option<Range>)
    requires DirectiveStarts(s, i)
    ensures body.Some? ==> i < body.value.start <= body.value.end < |s|
  {
    var start := if BracesAt(s, i) then i + 2 else i + 3;
    var close := if BracesAt(s, i) then NextClose(s, start) else NextStarParen(s, start);
    if close.Some? then Some(Range(start, close.value)) else None
  }

  function SpaceEnd(s: Bytes, i: nat, end: nat): (at: nat)
    requires i <= end <= |s|
    ensures i <= at <= end
    decreases end - i
  {
    if i < end && IsWhitespace(s[i]) then SpaceEnd(s, i + 1, end) else i
  }

  function KeywordEnd(s: Bytes, i: nat, end: nat): (at: nat)
    requires i <= end <= |s|
    ensures i <= at <= end
    decreases end - i
  {
    if i < end && IsWordPart(s[i]) then KeywordEnd(s, i + 1, end) else i
  }

  /** The directive with this body: its keyword comes first, its argument is the rest. */
  function DirectiveItem(s: Bytes, i: nat, body: Range, depth: nat): Item
    requires DirectiveStarts(s, i) && body.Within(|s|)
  {
    var start := SpaceEnd(s, body.start, body.end);
    var stop := KeywordEnd(s, start, body.end);
    Directive(Range(i, if BracesAt(s, i) then body.end + 1 else body.end + 2),
              ReadingOf(s, Range(start, stop), Range(stop, body.end), depth))
  }

  // ---- What a split is

  /** From `i` to `j` there are only strings, comments and other bytes. */
  ghost predicate Skips(s: Bytes, i: nat, j: nat)
    decreases |s| - i
  {
    i <= j <= |s| && (i < j ==> !DirectiveStarts(s, i) && Skips(s, LexemeEnd(s, i), j))
  }

  ghost predicate Shaped(s: Bytes, item: Item, depth: nat) {
    match item
    case Plain(r) => Skips(s, r.start, r.end)
    case Directive(r, _) =>
      && DirectiveStarts(s, r.start)
      && DirectiveBody(s, r.start).Some?
      && item == DirectiveItem(s, r.start, DirectiveBody(s, r.start).value, depth)
  }

  /** The split so far: items up to `from`, plain text never twice in a row. */
  ghost predicate SplitTo(s: Bytes, items: seq<Item>, from: nat, depth: nat) {
    && from <= |s|
    && (forall i :: 0 <= i < |items| ==> ItemAt(Text(s, Done(items)), i) && Shaped(s, items[i], depth))
    && Position(Text(s, Done(items)), |items|) == from
    && (forall i :: 0 < i < |items| ==> Alternates(items, i))
  }

  predicate Alternates(items: seq<Item>, i: nat)
    requires 0 < i < |items|
  {
    items[i - 1].Directive? || items[i].Directive?
  }

  function CountDirectives(items: seq<Item>): nat {
    if items == [] then 0
    else CountDirectives(items[..|items| - 1]) + if items[|items| - 1].Directive? then 1 else 0
  }

  /** Behind this much of the split a directive is not closed, or is one too many. */
  ghost predicate StuckAt(s: Bytes, items: seq<Item>, at: nat, limit: nat, depth: nat, fault: Fault) {
    && SplitTo(s, items, at, depth) && DirectiveStarts(s, at) && CountDirectives(items) <= limit
    && (if DirectiveBody(s, at).None? then fault == InvalidDirective
        else fault == BudgetExceeded(DirectiveCount) && CountDirectives(items) == limit)
  }

  /** The items of a source, or why there are none. */
  ghost predicate LexedAs(s: Bytes, items: Outcome<seq<Item>>, limit: nat, depth: nat) {
    match items
    case Done(split) => SplitTo(s, split, |s|, depth) && CountDirectives(split) <= limit
    case Fail(fault) => exists split, at :: StuckAt(s, split, at, limit, depth, fault)
  }

  lemma {:induction false} SkipsMore(s: Bytes, i: nat, j: nat)
    requires Skips(s, i, j) && j < |s| && !DirectiveStarts(s, j)
    ensures Skips(s, i, LexemeEnd(s, j))
    decreases |s| - i
  {
    hide LexemeEnd, DirectiveStarts;
    if i < j {
      SkipsMore(s, LexemeEnd(s, i), j);
    }
  }

  /** Where one skip ends, a longer one goes on. */
  lemma {:induction false} SkipsOn(s: Bytes, i: nat, j: nat, k: nat)
    requires Skips(s, i, j) && Skips(s, i, k) && j <= k
    ensures Skips(s, j, k)
    decreases |s| - i
  {
    hide LexemeEnd, DirectiveStarts;
    if i < j {
      SkipsOn(s, LexemeEnd(s, i), j, k);
    }
  }

  lemma SplitMore(s: Bytes, items: seq<Item>, from: nat, item: Item, depth: nat)
    requires SplitTo(s, items, from, depth) && item.range.start == from && from < item.range.end <= |s|
    requires Shaped(s, item, depth)
    requires item.Directive? || items == [] || items[|items| - 1].Directive?
    ensures SplitTo(s, items + [item], item.range.end, depth)
  {
    hide Shaped;
    var all := items + [item];
    var old_text, text := Text(s, Done(items)), Text(s, Done(all));
    forall i | 0 <= i < |all| ensures ItemAt(text, i) && Shaped(s, all[i], depth) {
      assert Position(text, i) == Position(old_text, i);
      if i < |items| {
        assert ItemAt(old_text, i);
      }
    }
    forall i | 0 < i < |all| ensures Alternates(all, i) {
      if i < |items| {
        assert Alternates(items, i);
      }
    }
  }

  lemma SplitLexes(s: Bytes, items: Outcome<seq<Item>>, limit: nat, depth: nat)
    requires LexedAs(s, items, limit, depth)
    ensures Lexes(Text(s, items))
  {
    hide Shaped, CountDirectives, StuckAt;
  }

  lemma CountMore(items: seq<Item>, item: Item)
    ensures CountDirectives(items + [item]) == CountDirectives(items) + if item.Directive? then 1 else 0
  {
    assert (items + [item])[..|items|] == items;
  }

  lemma SplitNothing(s: Bytes, depth: nat)
    ensures SplitTo(s, [], 0, depth) && CountDirectives([]) == 0
  {}

  // ---- A source has one split

  /** Where a split may end: a directive starts, or the source ends. */
  predicate Pauses(s: Bytes, at: nat) {
    at == |s| || DirectiveStarts(s, at)
  }

  ghost predicate SplitUpTo(s: Bytes, items: seq<Item>, from: nat, depth: nat) {
    SplitTo(s, items, from, depth) && Pauses(s, from)
  }

  /** Item `i` of a split, and what follows it. */
  lemma SplitItem(s: Bytes, items: seq<Item>, i: nat, from: nat, depth: nat)
    requires SplitUpTo(s, items, from, depth) && i < |items|
    ensures Shaped(s, items[i], depth) && items[i].range.start < items[i].range.end <= |s|
    ensures items[i].range.start == if i == 0 then 0 else items[i - 1].range.end
    ensures items[i].range.end == if i + 1 == |items| then from else items[i + 1].range.start
    ensures items[i].Plain? ==> Pauses(s, items[i].range.end)
  {
    hide Skips, DirectiveStarts, DirectiveBody, DirectiveItem;
    var text := Text(s, Done(items));
    assert ItemAt(text, i) && Shaped(s, items[i], depth);
    if i + 1 < |items| {
      assert ItemAt(text, i + 1) && Alternates(items, i + 1) && Shaped(s, items[i + 1], depth);
    }
  }

  /** Plain text goes on up to the next directive, so no other split has a longer piece. */
  lemma NotLonger(s: Bytes, a: Item, b: Item)
    requires a.Plain? && b.Plain? && a.range.start == b.range.start
    requires Skips(s, a.range.start, a.range.end) && Skips(s, b.range.start, b.range.end) && Pauses(s, a.range.end)
    ensures b.range.end <= a.range.end
  {
    hide LexemeEnd, DirectiveStarts;
    if a.range.end < b.range.end {
      SkipsOn(s, a.range.start, a.range.end, b.range.end);
    }
  }

  lemma SameItem(s: Bytes, a: Item, b: Item, depth: nat)
    requires Shaped(s, a, depth) && Shaped(s, b, depth) && a.range.start == b.range.start
    requires a.range.start < a.range.end <= |s| && b.range.start < b.range.end <= |s|
    requires (a.Plain? ==> Pauses(s, a.range.end)) && (b.Plain? ==> Pauses(s, b.range.end))
    ensures a == b
  {
    hide LexemeEnd, DirectiveStarts, DirectiveBody, DirectiveItem;
    if a.Plain? && b.Plain? {
      NotLonger(s, a, b);
      NotLonger(s, b, a);
    }
  }

  /** A shorter split is the beginning of every longer one. */
  lemma {:induction false} SplitPrefix(s: Bytes, a: seq<Item>, from: nat, b: seq<Item>, end: nat, n: nat, depth: nat)
    requires SplitUpTo(s, a, from, depth) && SplitUpTo(s, b, end, depth) && from <= end && n <= |a|
    ensures n <= |b| && a[..n] == b[..n]
    decreases n
  {
    hide SplitTo, Shaped, Pauses;
    if n > 0 {
      SplitPrefix(s, a, from, b, end, n - 1, depth);
      SplitItem(s, a, n - 1, from, depth);
      SplitReaches(s, a, n - 1, from, depth);
      if n > 1 {
        SplitItem(s, b, n - 2, end, depth);
        assert a[..n - 1][n - 2] == b[..n - 1][n - 2];
      } else {
        SplitSome(s, b, end, depth);
      }
      SplitItem(s, b, n - 1, end, depth);
      SameItem(s, a[n - 1], b[n - 1], depth);
      assert a[..n] == a[..n - 1] + [a[n - 1]] && b[..n] == b[..n - 1] + [b[n - 1]];
    }
  }

  /** No item goes beyond the end of its split. */
  lemma {:induction false} SplitReaches(s: Bytes, items: seq<Item>, i: nat, from: nat, depth: nat)
    requires SplitUpTo(s, items, from, depth) && i < |items|
    ensures items[i].range.end <= from
    decreases |items| - i
  {
    hide SplitTo, Shaped, Pauses;
    SplitItem(s, items, i, from, depth);
    if i + 1 < |items| {
      SplitItem(s, items, i + 1, from, depth);
      SplitReaches(s, items, i + 1, from, depth);
    }
  }

  lemma SplitSome(s: Bytes, items: seq<Item>, from: nat, depth: nat)
    requires SplitUpTo(s, items, from, depth) && from > 0
    ensures items != []
  {}

  /** There is only one way to split a source up to a place. */
  lemma SplitsAgree(s: Bytes, a: seq<Item>, b: seq<Item>, from: nat, depth: nat)
    requires SplitUpTo(s, a, from, depth) && SplitUpTo(s, b, from, depth)
    ensures a == b
  {
    hide SplitTo;
    SplitPrefix(s, a, from, b, from, |a|, depth);
    SplitPrefix(s, b, from, a, from, |b|, depth);
  }

  lemma {:induction false} CountGrows(items: seq<Item>, n: nat)
    requires n <= |items|
    ensures CountDirectives(items[..n]) <= CountDirectives(items)
    decreases |items| - n
  {
    if n == |items| {
      assert items[..n] == items;
    } else {
      CountGrows(items, n + 1);
      assert items[..n + 1] == items[..n] + [items[n]];
      CountMore(items[..n], items[n]);
    }
  }

  /** No split within the limit goes beyond a place where splitting gets stuck. */
  lemma StuckStays(s: Bytes, items: seq<Item>, at: nat, limit: nat, depth: nat, fault: Fault, b: seq<Item>, end: nat)
    requires StuckAt(s, items, at, limit, depth, fault) && SplitUpTo(s, b, end, depth) && CountDirectives(b) <= limit
    ensures end <= at
  {
    hide SplitTo, CountDirectives, DirectiveBody, DirectiveItem, DirectiveStarts;
    if end > at {
      var n := |items|;
      SplitPrefix(s, items, at, b, end, n, depth);
      assert items[..n] == items;
      SplitSome(s, b, end, depth);
      if n > 0 {
        SplitItem(s, items, n - 1, at, depth);
        SplitItem(s, b, n - 1, end, depth);
        assert items[n - 1] == b[..n][n - 1];
      } else {
        SplitStarts(s, items, at, depth);
      }
      SplitItem(s, b, n, end, depth);
      assert b[..n + 1] == items + [b[n]];
      CountMore(items, b[n]);
      CountGrows(b, n + 1);
    }
  }

  lemma SplitStarts(s: Bytes, items: seq<Item>, at: nat, depth: nat)
    requires SplitTo(s, items, at, depth) && items == []
    ensures at == 0
  {}

  /** What splitting a source yields, or why it fails, is determined by the source and the limits. */
  lemma LexedOnce(s: Bytes, a: Outcome<seq<Item>>, b: Outcome<seq<Item>>, limit: nat, depth: nat)
    requires LexedAs(s, a, limit, depth) && LexedAs(s, b, limit, depth)
    ensures a == b
  {
    hide SplitTo, CountDirectives, DirectiveBody;
    if a.Done? && b.Done? {
      SplitsAgree(s, a.value, b.value, |s|, depth);
    } else if a.Fail? && b.Done? {
      NeverBoth(s, a.fault, b.value, limit, depth);
    } else if a.Done? && b.Fail? {
      NeverBoth(s, b.fault, a.value, limit, depth);
    } else {
      var i, m :| StuckAt(s, i, m, limit, depth, a.fault);
      var j, n :| StuckAt(s, j, n, limit, depth, b.fault);
      StuckStays(s, i, m, limit, depth, a.fault, j, n);
      StuckStays(s, j, n, limit, depth, b.fault, i, m);
      SplitsAgree(s, i, j, m, depth);
    }
  }

  lemma NeverBoth(s: Bytes, fault: Fault, items: seq<Item>, limit: nat, depth: nat)
    requires LexedAs(s, Done(items), limit, depth)
    ensures !LexedAs(s, Fail(fault), limit, depth)
  {
    hide SplitTo, CountDirectives, DirectiveBody;
    if LexedAs(s, Fail(fault), limit, depth) {
      var i, m :| StuckAt(s, i, m, limit, depth, fault);
      StuckStays(s, i, m, limit, depth, fault, items, |s|);
    }
  }

  // ---- Splitting

  method SkipString(s: Bytes, i: nat) returns (end: nat)
    requires i < |s|
    ensures end == StringEnd(s, i + 1, s[i])
  {
    var quote := s[i];
    end := i + 1;
    while end < |s|
      invariant i < end <= |s| && StringEnd(s, end, quote) == StringEnd(s, i + 1, quote)
    {
      if s[end] == quote {
        if end + 1 < |s| && s[end + 1] == quote {
          end := end + 2;
        } else {
          return end + 1;
        }
      } else {
        end := end + 1;
      }
    }
  }

  method SkipLine(s: Bytes, i: nat) returns (end: nat)
    requires i <= |s|
    ensures end == NextBreak(s, i)
  {
    end := i;
    while end < |s| && !IsBreak(s[end])
      invariant i <= end <= |s| && NextBreak(s, end) == NextBreak(s, i)
    {
      end := end + 1;
    }
  }

  method FindClose(s: Bytes, i: nat) returns (at: Option<nat>)
    ensures at == NextClose(s, i)
  {
    var k := i;
    while k < |s|
      invariant i <= k && NextClose(s, k) == NextClose(s, i)
    {
      if s[k] == CLOSE {
        return Some(k);
      }
      k := k + 1;
    }
    at := None;
  }

  method FindStarParen(s: Bytes, i: nat) returns (at: Option<nat>)
    ensures at == NextStarParen(s, i)
  {
    var k := i;
    while k + 1 < |s|
      invariant i <= k && NextStarParen(s, k) == NextStarParen(s, i)
    {
      if StarParenAt(s, k) {
        return Some(k);
      }
      k := k + 1;
    }
    at := None;
  }

  method ReadDirective(s: Bytes, i: nat, depth: nat) returns (item: Option<Item>)
    requires DirectiveStarts(s, i)
    ensures item == match DirectiveBody(s, i) case Some(body) => Some(DirectiveItem(s, i, body, depth)) case None =>
            None
  {
    hide ReadingOf;
    var braces := BracesAt(s, i);
    var body := if braces then i + 2 else i + 3;
    var close;
    if braces {
      close := FindClose(s, body);
    } else {
      close := FindStarParen(s, body);
    }
    if close.None? {
      return None;
    }
    var end := close.value;
    var start := body;
    while start < end && IsWhitespace(s[start])
      invariant body <= start <= end && SpaceEnd(s, start, end) == SpaceEnd(s, body, end)
    {
      start := start + 1;
    }
    var stop := start;
    while stop < end && IsWordPart(s[stop])
      invariant start <= stop <= end && KeywordEnd(s, stop, end) == KeywordEnd(s, start, end)
    {
      stop := stop + 1;
    }
    item := Some(Directive(Range(i, if braces then end + 1 else end + 2),
                           ReadingOf(s, Range(start, stop), Range(stop, end), depth)));
  }

  method SkipAt(s: Bytes, i: nat) returns (next: nat)
    requires i < |s|
    ensures next == LexemeEnd(s, i)
  {
    if IsQuote(s[i]) {
      next := SkipString(s, i);
    } else if s[i] == SLASH && i + 1 < |s| && s[i + 1] == SLASH {
      next := SkipLine(s, i + 2);
    } else if s[i] == OPEN {
      var close := FindClose(s, i + 1);
      next := if close.Some? then close.value + 1 else |s|;
    } else if s[i] == LEFT && i + 1 < |s| && s[i + 1] == STAR {
      var close := FindStarParen(s, i + 2);
      next := if close.Some? then close.value + 2 else |s|;
    } else {
      next := i + 1;
    }
  }

  lemma DirectiveFits(s: Bytes, i: nat, depth: nat)
    requires DirectiveStarts(s, i) && DirectiveBody(s, i).Some?
    ensures var item := DirectiveItem(s, i, DirectiveBody(s, i).value, depth);
            item.Directive? && item.range.start == i < item.range.end <= |s| && Shaped(s, item, depth)
  {
    hide ReadingOf;
  }

  /** Plain text that was skipped becomes an item before a directive or the end. */
  method ClosePlain(s: Bytes, split: seq<Item>, from: nat, cursor: nat, depth: nat) returns (items: seq<Item>)
    requires SplitTo(s, split, from, depth) && Skips(s, from, cursor) && from <= cursor <= |s|
    requires (split != [] ==> split[|split| - 1].Directive?)
    ensures items == split + if from < cursor then [Plain(Range(from, cursor))] else []
    ensures SplitTo(s, items, cursor, depth) && CountDirectives(items) == CountDirectives(split)
  {
    hide SplitTo, CountDirectives;
    items := split;
    if from < cursor {
      SplitMore(s, split, from, Plain(Range(from, cursor)), depth);
      CountMore(split, Plain(Range(from, cursor)));
      items := items + [Plain(Range(from, cursor))];
    }
  }

  /** Split a source; it fails when a directive is not closed or there are too many. */
  method LexSource(s: Bytes, limit: nat, depth: nat) returns (items: Outcome<seq<Item>>)
    ensures LexedAs(s, items, limit, depth)
  {
    hide SplitTo, CountDirectives, Skips, LexemeEnd, DirectiveBody, DirectiveItem, Shaped;
    var split: seq<Item> := [];
    var cursor, from, count := 0, 0, 0;
    SplitNothing(s, depth);
    SkipsNothing(s, 0);
    while cursor < |s|
      invariant 0 <= from <= cursor <= |s| && SplitTo(s, split, from, depth) && count == CountDirectives(split) <= limit
      invariant Skips(s, from, cursor) && (split != [] ==> split[|split| - 1].Directive?)
    {
      if !DirectiveStarts(s, cursor) {
        SkipsMore(s, from, cursor);
        cursor := SkipAt(s, cursor);
      } else {
        split := ClosePlain(s, split, from, cursor, depth);
        var directive := ReadDirective(s, cursor, depth);
        if directive.None? {
          assert StuckAt(s, split, cursor, limit, depth, InvalidDirective);
          return Fail(InvalidDirective);
        }
        if count >= limit {
          assert StuckAt(s, split, cursor, limit, depth, BudgetExceeded(DirectiveCount));
          return Fail(BudgetExceeded(DirectiveCount));
        }
        DirectiveFits(s, cursor, depth);
        SplitMore(s, split, cursor, directive.value, depth);
        CountMore(split, directive.value);
        split := split + [directive.value];
        count := count + 1;
        cursor := directive.value.range.end;
        from := cursor;
        SkipsNothing(s, from);
      }
    }
    split := ClosePlain(s, split, from, |s|, depth);
    items := Done(split);
  }

  lemma SkipsNothing(s: Bytes, i: nat)
    requires i <= |s|
    ensures Skips(s, i, i)
  {}
}
