/** What a group chosen flat becomes, and how long its line gets. */
module LayoutTheorems {
  import opened PascalSyntax
  import opened LayoutDocs
  import opened LayoutLaws
  import opened LineStarts

  // ---- Writing flat

  /** A document on one line, with no choices left: every group and every fill is flat. */
  function FlatPen(style: Style, pen: Pen, doc: Doc, indent: nat): Pen
    decreases doc
  {
    match doc
    case Token(text, kind, parent) => WriteToken(style, pen, text, kind, parent, indent)
    case Raw(text) => WriteRaw(pen, text)
    case Line => Space(pen)
    case PreservedLine => Space(pen)
    case Concat(docs) => FlatPens(style, pen, docs, indent)
    case Indent(inner) => FlatPen(style, pen, inner, indent + 1)
    case Group(inner) => FlatPen(style, pen, inner, indent)
    case IfBreak(_, flat) => FlatPen(style, pen, flat, indent)
    case Fill(parts) => FlatPens(style, pen, parts, indent)
    case FillRest(parts) => FlatPens(style, pen, parts, indent)
    case _ => pen
  }

  function FlatPens(style: Style, pen: Pen, docs: seq<Doc>, indent: nat): Pen
    decreases docs
  {
    if docs == [] then pen else FlatPens(style, FlatPen(style, pen, docs[0], indent), docs[1..], indent)
  }

  // ---- Single steps

  lemma DrainStep(style: Style, pen: Pen, below: seq<Entry>, e: Entry)
    ensures Drained(style, pen, below + [e])
            == Drained(style, PenAfter(style, pen, e), below + EntriesAfter(style, pen, e, below))
  {
    hide EntriesAfter, PenAfter;
    var stack := below + [e];
    assert stack[|stack| - 1] == e && stack[..|stack| - 1] == below;
  }

  /** A flat entry writes what the flat document writes. */
  lemma WriteFlat(style: Style, pen: Pen, indent: nat, doc: Doc)
    requires Writes(doc)
    ensures PenAfter(style, pen, Entry(indent, Flat, doc)) == FlatPen(style, pen, doc, indent)
    ensures !EndsLine(Entry(indent, Flat, doc))
  {}

  lemma NoMore(below: seq<Entry>)
    ensures below + [] == below
  {}

  // ---- A flat group

  ghost predicate Flattens(
    style: Style, pen: Pen, below: seq<Entry>, more: seq<Entry>, pen': Pen, m: Meter, room: nat)
  {
    Drained(style, pen, below + more) == Drained(style, pen', below) && LineOk(style, pen', below, m, room)
    && GoesOn(pen, pen')
  }

  lemma GoesOnTwice(a: Pen, b: Pen, c: Pen)
    requires GoesOn(a, b) && GoesOn(b, c)
    ensures GoesOn(a, c)
  {
    assert c.output[|a.output|..] == b.output[|a.output|..] + c.output[|b.output|..];
    assert c.output[..|a.output|] == b.output[..|a.output|];
  }

  lemma StaysPut(pen: Pen)
    ensures GoesOn(pen, pen)
  {}

  /** Entries that unfold flatten as what they unfold to. */
  lemma FlattensUnfolded(style: Style, pen: Pen, below: seq<Entry>, e: Entry, pen': Pen, m: Meter, room: nat)
    requires !Writes(e.doc) && !EndsLine(e)
    requires Flattens(style, pen, below, EntriesAfter(style, pen, e, below), pen', m, room)
    ensures Flattens(style, pen, below, [e], pen', m, room)
  {
    hide Drained, EntriesAfter, GoesOn, LineOk;
    DrainStep(style, pen, below, e);
  }

  /** A flat document on a line that fits is written flat, and leaves a line that fits. */
  lemma {:induction false} FlatRuns(
    style: Style, pen: Pen, below: seq<Entry>, indent: nat, doc: Doc, m: Meter, room: nat)
    returns (m': Meter)
    requires Quiet(style) && Joined(doc) && LineOk(style, pen, below + [Entry(indent, Flat, doc)], m, room)
    ensures Flattens(style, pen, below, [Entry(indent, Flat, doc)], FlatPen(style, pen, doc, indent), m', room)
    decreases Size(doc), 0
  {
    hide Quiet, LineOk, Drained, FlatPens, Stacked, FitsGroup, GoesOn, Flattens;
    var e := Entry(indent, Flat, doc);
    if Writes(doc) {
      WriteFlat(style, pen, indent, doc);
      m' := FlatWrite(style, pen, below, indent, doc, m, room);
    } else {
      UnfoldStep(style, pen, below, e, m, room);
      match doc {
        case Concat(docs) => m' := FlatRunsAll(style, pen, below, indent, docs, m, room);
        case Indent(inner) => m' := FlatRuns(style, pen, below, indent + 1, inner, m, room);
        case Group(inner) => m' := FlatRuns(style, pen, below, indent, inner, m, room);
        case IfBreak(broken, flat) =>
          SomeSize(broken);
          m' := FlatRuns(style, pen, below, indent, flat, m, room);
        case Fill(parts) => m' := FlatRuns(style, pen, below, indent, FillRest(parts), m, room);
        case FillRest(parts) => m' := FlatFill(style, pen, below, indent, parts, m, room);
      }
      FlattensUnfolded(style, pen, below, e, FlatPen(style, pen, doc, indent), m', room);
    }
  }

  lemma FlatWrite(style: Style, pen: Pen, below: seq<Entry>, indent: nat, doc: Doc, m: Meter, room: nat)
    returns (m': Meter)
    requires Quiet(style) && LineOk(style, pen, below + [Entry(indent, Flat, doc)], m, room) && Writes(doc)
    requires PenAfter(style, pen, Entry(indent, Flat, doc)) == FlatPen(style, pen, doc, indent)
    requires !EndsLine(Entry(indent, Flat, doc))
    ensures Flattens(style, pen, below, [Entry(indent, Flat, doc)], FlatPen(style, pen, doc, indent), m', room)
  {
    hide Quiet, LineOk, Drained, FlatPen, PenAfter, EntriesAfter, EndsLine, GoesOn;
    var e := Entry(indent, Flat, doc);
    DrainStep(style, pen, below, e);
    m' := WriteStep(style, pen, below, e, m, room);
    NoMore(below);
  }

  lemma {:induction false} FlatRunsAll(
    style: Style, pen: Pen, below: seq<Entry>, indent: nat, docs: seq<Doc>, m: Meter, room: nat)
    returns (m': Meter)
    requires Quiet(style) && AllJoined(docs) && LineOk(style, pen, below + Stacked(docs, indent, Flat), m, room)
    ensures Flattens(style, pen, below, Stacked(docs, indent, Flat), FlatPens(style, pen, docs, indent), m', room)
    decreases Sizes(docs), 1
  {
    hide Quiet, LineOk, Drained, FlatPen, Joined, GoesOn;
    if docs == [] {
      NoMore(below);
      StaysPut(pen);
      m' := m;
    } else {
      var rest := Stacked(docs[1..], indent, Flat);
      var top := Entry(indent, Flat, docs[0]);
      assert below + Stacked(docs, indent, Flat) == (below + rest) + [top];
      SomeSize(docs[0]);
      var m1 := FlatRuns(style, pen, below + rest, indent, docs[0], m, room);
      var next := FlatPen(style, pen, docs[0], indent);
      m' := FlatRunsAll(style, next, below, indent, docs[1..], m1, room);
      GoesOnTwice(pen, next, FlatPens(style, next, docs[1..], indent));
    }
  }

  lemma NoHardline(doc: Doc)
    requires Joined(doc)
    ensures !doc.Hardline?
  {}

  /** Inside a flat group every separator of a fill is flat. */
  lemma SeparatorFlat(style: Style, pen: Pen, below: seq<Entry>, indent: nat, parts: seq<Doc>, m: Meter, room: nat)
    requires Quiet(style) && LineOk(style, pen, below + [Entry(indent, Flat, FillRest(parts))], m, room)
    requires AllJoined(parts) && |parts| >= 2
    ensures SeparatorMode(style, pen, indent, Flat, parts[0], parts[1]).Flat?
  {
    hide Quiet, FitsItems, FitsInner, FitsRest, Tidy, Joined, StackStart, Better, MeterAt;
    var e := Entry(indent, Flat, FillRest(parts));
    NoHardline(parts[0]);
    ChoiceRoom(style, pen, below, e, m, room);
    var there := MeterAt(style, pen, indent);
    RestAdds(style, below, [e], m);
    RestOne(style, e, m);
    TidyParts(below, e);
    FillTidy(parts);
    TwoItems(style, parts, indent, m);
    InnerIsItem(style, parts[0], indent, m);
    var a := FitsInner(style, parts[0], indent, m).value;
    BetterInner(style, parts[0], indent, m, there);
    InnerIsItem(style, parts[1], indent, a);
    BetterInner(style, parts[1], indent, a, FitsInner(style, parts[0], indent, there).value);
  }

  lemma {:induction false} FlatFill(
    style: Style, pen: Pen, below: seq<Entry>, indent: nat, parts: seq<Doc>, m: Meter, room: nat)
    returns (m': Meter)
    requires Quiet(style) && AllJoined(parts)
    requires LineOk(style, pen, below + [Entry(indent, Flat, FillRest(parts))], m, room)
    requires LineOk(style, pen, below + FillEntries(style, pen, indent, Flat, parts), m, room)
    ensures Flattens(style, pen, below, FillEntries(style, pen, indent, Flat, parts),
                     FlatPens(style, pen, parts, indent), m', room)
    decreases Size(FillRest(parts)) - 1, 2
  {
    hide Quiet, LineOk, Drained, FlatPen, Joined, GoesOn, SeparatorMode, Stacked;
    if |parts| < 2 {
      m' := FlatRunsAll(style, pen, below, indent, parts, m, room);
    } else {
      SeparatorFlat(style, pen, below, indent, parts, m, room);
      m' := FlatPair(style, pen, below, indent, parts, m, room);
    }
  }

  lemma {:induction false} FlatPair(
    style: Style, pen: Pen, below: seq<Entry>, indent: nat, parts: seq<Doc>, m: Meter, room: nat)
    returns (m': Meter)
    requires Quiet(style) && AllJoined(parts) && |parts| >= 2
    requires FillEntries(style, pen, indent, Flat, parts)
             == (if |parts| > 2 then [Entry(indent, Flat, FillRest(parts[2..]))] else [])
                + [Entry(indent, Flat, parts[1]), Entry(indent, Flat, parts[0])]
    requires LineOk(style, pen, below + FillEntries(style, pen, indent, Flat, parts), m, room)
    ensures Flattens(style, pen, below, FillEntries(style, pen, indent, Flat, parts),
                     FlatPens(style, pen, parts, indent), m', room)
    decreases Size(FillRest(parts)) - 1, 1
  {
    hide Quiet, LineOk, Drained, FlatPen, Joined, GoesOn, FillEntries;
    var entries := FillEntries(style, pen, indent, Flat, parts);
    var rest := if |parts| > 2 then [Entry(indent, Flat, FillRest(parts[2..]))] else [];
    var content, sep := Entry(indent, Flat, parts[1]), Entry(indent, Flat, parts[0]);
    PairSizes(parts);
    assert below + entries == ((below + rest) + [content]) + [sep];
    var m1 := FlatRuns(style, pen, (below + rest) + [content], indent, parts[0], m, room);
    var p1 := FlatPen(style, pen, parts[0], indent);
    var m2 := FlatRuns(style, p1, below + rest, indent, parts[1], m1, room);
    var p2 := FlatPen(style, p1, parts[1], indent);
    GoesOnTwice(pen, p1, p2);
    PairPens(style, pen, parts, indent);
    if |parts| > 2 {
      JoinedRest(parts);
      m' := FlatRuns(style, p2, below, indent, FillRest(parts[2..]), m2, room);
      RestPens(style, p2, parts[2..], indent);
      GoesOnTwice(pen, p2, FlatPens(style, p2, parts[2..], indent));
    } else {
      NoMore(below);
      assert parts[2..] == [];
      m' := m2;
    }
  }

  lemma PairSizes(parts: seq<Doc>)
    requires |parts| >= 2
    ensures Size(parts[0]) < Size(FillRest(parts)) - 1 && Size(parts[1]) < Size(FillRest(parts)) - 1
    ensures Size(FillRest(parts[2..])) < Size(FillRest(parts)) - 1
  {
    hide Size;
    SomeSize(parts[0]);
    SomeSize(parts[1]);
    assert parts[1..][0] == parts[1] && parts[1..][1..] == parts[2..];
    assert Sizes(parts) == Size(parts[0]) + (Size(parts[1]) + Sizes(parts[2..]));
    FillRestSize(parts);
    FillRestSize(parts[2..]);
  }

  lemma FillRestSize(parts: seq<Doc>)
    ensures Size(FillRest(parts)) == 1 + |parts| + Sizes(parts)
  {}

  lemma PairPens(style: Style, pen: Pen, parts: seq<Doc>, indent: nat)
    requires |parts| >= 2
    ensures FlatPens(style, pen, parts, indent)
            == FlatPens(style, FlatPen(style, FlatPen(style, pen, parts[0], indent), parts[1], indent), parts[2..],
                        indent)
  {
    hide FlatPen;
    assert parts[1..][0] == parts[1] && parts[1..][1..] == parts[2..];
  }

  lemma RestPens(style: Style, pen: Pen, parts: seq<Doc>, indent: nat)
    ensures FlatPen(style, pen, FillRest(parts), indent) == FlatPens(style, pen, parts, indent)
  {}

  lemma JoinedRest(parts: seq<Doc>)
    requires AllJoined(parts) && |parts| >= 2
    ensures Joined(FillRest(parts[2..]))
  {}

  // ---- The line

  /** The characters before the first line break. */
  function FirstLine(text: string): nat {
    if text == "" || text[0] == NEWLINE then 0 else 1 + FirstLine(text[1..])
  }

  lemma {:induction false} FirstLineAdds(a: string, b: string)
    requires OneLine(a)
    ensures FirstLine(a + b) == |a| + FirstLine(b)
  {
    if a == "" {
      assert a + b == b;
    } else {
      assert a[0] in a && (a + b)[0] == a[0] && (a + b)[1..] == a[1..] + b;
      assert forall c :: c in a[1..] ==> c in a;
      FirstLineAdds(a[1..], b);
    }
  }

  predicate Extends(pen: Pen, pen': Pen) {
    |pen.output| <= |pen'.output| && pen.output == pen'.output[..|pen.output|]
  }

  function Added(pen: Pen, pen': Pen): string
    requires Extends(pen, pen')
  {
    pen'.output[|pen.output|..]
  }

  lemma ExtendsTwice(a: Pen, b: Pen, c: Pen)
    requires Extends(a, b) && Extends(b, c)
    ensures Extends(a, c) && Added(a, c) == Added(a, b) + Added(b, c)
  {
    assert c.output[..|a.output|] == b.output[..|a.output|];
  }

  lemma WriteExtends(style: Style, pen: Pen, e: Entry)
    ensures Extends(pen, PenAfter(style, pen, e))
  {}

  /** Nothing that was written is changed. */
  lemma {:induction false} DrainExtends(style: Style, pen: Pen, stack: seq<Entry>)
    ensures Extends(pen, Drained(style, pen, stack))
    decreases StackSize(stack)
  {
    hide PenAfter, EntriesAfter;
    if stack != [] {
      var e, below := stack[|stack| - 1], stack[..|stack| - 1];
      var more := EntriesAfter(style, pen, e, below);
      StepShrinks(style, pen, e, below);
      StackSizeAdds(below, more);
      WriteExtends(style, pen, e);
      DrainExtends(style, PenAfter(style, pen, e), below + more);
      ExtendsTwice(pen, PenAfter(style, pen, e), Drained(style, PenAfter(style, pen, e), below + more));
    }
  }

  lemma LineEnded(style: Style, pen: Pen, e: Entry)
    requires EndsLine(e) && (MidLine(pen) || !e.doc.LineStart?)
    ensures Extends(pen, PenAfter(style, pen, e))
    ensures Added(pen, PenAfter(style, pen, e)) != "" && Added(pen, PenAfter(style, pen, e))[0] == NEWLINE
  {}

  lemma FirstLineEmpty(pen: Pen)
    ensures Extends(pen, pen) && FirstLine(Added(pen, pen)) == 0
  {}

  lemma FirstLineStarts(a: string, b: string)
    requires a != "" && a[0] == NEWLINE
    ensures FirstLine(a + b) == 0
  {}

  lemma OkWidth(style: Style, pen: Pen, stack: seq<Entry>, m: Meter, room: nat)
    requires LineOk(style, pen, stack, m, room)
    ensures pen.column <= style.maxLength
  {}

  /** A line start that is not risky is not the start of verbatim lines. */
  lemma NoLineStart(style: Style, pen: Pen, below: seq<Entry>, e: Entry, m: Meter, room: nat)
    requires LineOk(style, pen, below + [e], m, room) && !MidLine(pen)
    ensures !e.doc.LineStart?
  {
    hide FitsRest, Tidy;
    assert (below + [e])[|below|] == e;
  }

  lemma Unfolded(style: Style, pen: Pen, e: Entry)
    requires !Writes(e.doc) && !EndsLine(e)
    ensures PenAfter(style, pen, e) == pen && Extends(pen, pen) && Added(pen, pen) == ""
  {}

  /** A step that does not end the line keeps it fitting. */
  lemma StepOn(style: Style, pen: Pen, below: seq<Entry>, e: Entry, m: Meter, room: nat) returns (m': Meter)
    requires Quiet(style) && LineOk(style, pen, below + [e], m, room) && !EndsLine(e)
    ensures var next := PenAfter(style, pen, e);
            && LineOk(style, next, below + EntriesAfter(style, pen, e, below), m', room)
            && Extends(pen, next) && OneLine(Added(pen, next)) && pen.column + |Added(pen, next)| <= next.column
  {
    hide Quiet, LineOk, EntriesAfter, EndsLine;
    if Writes(e.doc) {
      hide PenAfter;
      m' := WriteStep(style, pen, below, e, m, room);
      NoMore(below);
    } else {
      UnfoldStep(style, pen, below, e, m, room);
      Unfolded(style, pen, e);
      m' := m;
    }
  }

  /** On a line that fits, everything up to the next line break stays within the limit. */
  lemma {:induction false} FittingLine(style: Style, pen: Pen, stack: seq<Entry>, width: nat, m: Meter, room: nat)
    requires Quiet(style) && LineOk(style, pen, stack, m, room) && width <= pen.column
    ensures Extends(pen, Drained(style, pen, stack))
    ensures width + FirstLine(Added(pen, Drained(style, pen, stack))) <= style.maxLength
    decreases StackSize(stack)
  {
    hide Quiet, LineOk, PenAfter, EntriesAfter, Writes, EndsLine, FirstLine, GoesOn, MidLine;
    DrainExtends(style, pen, stack);
    OkWidth(style, pen, stack, m, room);
    if stack == [] {
      FirstLineEmpty(pen);
    } else {
      var e, below := stack[|stack| - 1], stack[..|stack| - 1];
      assert stack == below + [e];
      var more := EntriesAfter(style, pen, e, below);
      var next := PenAfter(style, pen, e);
      StepShrinks(style, pen, e, below);
      StackSizeAdds(below, more);
      if EndsLine(e) {
        if !MidLine(pen) {
          NoLineStart(style, pen, below, e, m, room);
        }
        LineEnded(style, pen, e);
        DrainExtends(style, next, below + more);
        ExtendsTwice(pen, next, Drained(style, next, below + more));
        FirstLineStarts(Added(pen, next), Added(next, Drained(style, next, below + more)));
      } else {
        var m' := StepOn(style, pen, below, e, m, room);
        FittingLine(style, next, below + more, width + |Added(pen, next)|, m', room);
        ExtendsTwice(pen, next, Drained(style, next, below + more));
        FirstLineAdds(Added(pen, next), Added(next, Drained(style, next, below + more)));
      }
    }
  }

  // ---- The theorems

  /**
    The line began within the limit: mid-line the pen is within it; at the start of a line
    nothing that starts it, in the flat group or after it, is outside what was measured.
    */
  ghost predicate Secure(style: Style, pen: Pen, stack: seq<Entry>, indent: nat, inner: Doc) {
    if MidLine(pen) then pen.column <= style.maxLength
    else
      !StackStart(style, Left(style, IndentWidth(style, indent)), stack + [Entry(indent, Flat, inner)], pen.kind,
                  pen.parent).Risky?
  }

  /** A line break means column 0. */
  predicate Grounded(pen: Pen) {
    AtLineStart(pen) ==> pen.column == 0
  }

  lemma ChosenFits(style: Style, pen: Pen, stack: seq<Entry>, indent: nat, inner: Doc)
    requires Quiet(style) && Grounded(pen) && TidyStack(stack) && Tidy(Group(inner))
    requires FitsGroup(style, pen, inner, indent, stack) && Secure(style, pen, stack, indent, inner)
    ensures LineOk(style, pen, stack + [Entry(indent, Flat, inner)], MeterAt(style, pen, indent),
                   Left(style, IndentWidth(style, indent)))
  {
    hide Quiet, FitsInner, FitsRest, Tidy, Joined, StackStart;
    var e := Entry(indent, Flat, inner);
    var m := MeterAt(style, pen, indent);
    GroupTidy(inner);
    InnerIsItem(style, inner, indent, m);
    RestAdds(style, stack, [e], m);
    RestOne(style, e, m);
  }

  /** A chosen group is on top of the stack in flat mode. */
  lemma ChosenStep(style: Style, pen: Pen, stack: seq<Entry>, indent: nat, mode: Mode, inner: Doc)
    requires FitsGroup(style, pen, inner, indent, stack)
    ensures Drained(style, pen, stack + [Entry(indent, mode, Group(inner))])
            == Drained(style, pen, stack + [Entry(indent, Flat, inner)])
  {
    hide Drained, FitsGroup;
    DrainStep(style, pen, stack, Entry(indent, mode, Group(inner)));
  }

  /** The group is written exactly as its flat form, with no line break, within the limit. */
  ghost predicate WrittenFlat(style: Style, pen: Pen, stack: seq<Entry>, indent: nat, mode: Mode, inner: Doc) {
    var flat := FlatPen(style, pen, inner, indent);
    && Drained(style, pen, stack + [Entry(indent, mode, Group(inner))]) == Drained(style, flat, stack)
    && GoesOn(pen, flat) && flat.column <= style.maxLength
  }

  /** The line of the group, from its start to the next line break, stays within the limit. */
  ghost predicate KeepsWithin(style: Style, pen: Pen, stack: seq<Entry>, indent: nat, mode: Mode, inner: Doc) {
    var end := Drained(style, pen, stack + [Entry(indent, mode, Group(inner))]);
    Extends(pen, end) && LineWidth(pen.output) + FirstLine(Added(pen, end)) <= style.maxLength
  }

  /** A group chosen flat is written as if it had no groups, fills or line breaks in it at all. */
  lemma ChosenFlatIsFlat(style: Style, pen: Pen, stack: seq<Entry>, indent: nat, mode: Mode, inner: Doc)
    requires Quiet(style) && Grounded(pen) && TidyStack(stack) && Tidy(Group(inner))
    requires FitsGroup(style, pen, inner, indent, stack) && Secure(style, pen, stack, indent, inner)
    ensures WrittenFlat(style, pen, stack, indent, mode, inner)
  {
    hide Quiet, Drained, Tidy, Joined, FitsGroup, FlatPen, GoesOn, LineOk, Secure;
    ChosenFits(style, pen, stack, indent, inner);
    ChosenStep(style, pen, stack, indent, mode, inner);
    GroupTidy(inner);
    var room := Left(style, IndentWidth(style, indent));
    var m := FlatRuns(style, pen, stack, indent, inner, MeterAt(style, pen, indent), room);
    OkWidth(style, FlatPen(style, pen, inner, indent), stack, m, room);
  }

  /** The line of a group chosen flat keeps within the limit up to its end. */
  lemma ChosenFlatKeepsWithin(style: Style, pen: Pen, stack: seq<Entry>, indent: nat, mode: Mode, inner: Doc)
    requires Quiet(style) && Grounded(pen) && Counted(pen) && TidyStack(stack) && Tidy(Group(inner))
    requires FitsGroup(style, pen, inner, indent, stack) && Secure(style, pen, stack, indent, inner)
    ensures KeepsWithin(style, pen, stack, indent, mode, inner)
  {
    hide Quiet, Drained, Tidy, FitsGroup, FirstLine, LineOk, Secure, LineWidth;
    ChosenFits(style, pen, stack, indent, inner);
    ChosenStep(style, pen, stack, indent, mode, inner);
    FittingLine(style, pen, stack + [Entry(indent, Flat, inner)], LineWidth(pen.output), MeterAt(style, pen, indent),
                Left(style, IndentWidth(style, indent)));
  }

  // ---- Whole documents

  /** The characters since the last line break. */
  function LineWidth(text: string): nat {
    if text == "" || text[|text| - 1] == NEWLINE then 0 else LineWidth(text[..|text| - 1]) + 1
  }

  lemma {:induction false} LineWidthAdds(a: string, b: string)
    requires OneLine(b)
    ensures LineWidth(a + b) == LineWidth(a) + |b|
    decreases |b|
  {
    if b == "" {
      assert a + b == a;
    } else {
      var n := |b| - 1;
      assert b[n] in b && (forall c :: c in b[..n] ==> c in b);
      assert (a + b)[..|a + b| - 1] == a + b[..n] && (a + b)[|a + b| - 1] == b[n];
      LineWidthAdds(a, b[..n]);
    }
  }

  /** The column is never less than the width of the line. */
  predicate Counted(pen: Pen) {
    LineWidth(pen.output) <= pen.column
  }

  lemma CountedMore(pen: Pen, pen': Pen, text: string)
    requires OneLine(text) && pen'.output == pen.output + text && LineWidth(pen.output) + |text| <= pen'.column
    ensures Counted(pen')
  {
    LineWidthAdds(pen.output, text);
  }

  lemma StartWidth(pen: Pen)
    requires Counted(pen) && AtLineStart(pen)
    ensures LineWidth(pen.output) == 0
  {}

  lemma NewlineCounted(pen: Pen)
    ensures LineWidth(pen.output + [NEWLINE]) == 0
  {}

  lemma TokenCounted(style: Style, pen: Pen, text: string, kind: string, parent: string, indent: nat)
    requires Counted(pen) && OneLine(text)
    ensures Counted(WriteToken(style, pen, text, kind, parent, indent))
  {
    hide ByteLength, LineWidth, IndentText, IndentWidth;
    var pen' := WriteToken(style, pen, text, kind, parent, indent);
    BytesEnough(text);
    if AtLineStart(pen) {
      StartWidth(pen);
      IndentsOneLine(style, indent);
      var all := IndentText(style, indent) + text;
      assert pen'.output == pen.output + all;
      CountedMore(pen, pen', all);
    } else {
      var all := (if style.needsSpace(pen.kind, pen.parent, kind, parent) then " " else "") + text;
      assert pen'.output == pen.output + all;
      CountedMore(pen, pen', all);
    }
  }

  lemma LineStartCounted(pen: Pen, indentation: string)
    requires Counted(pen) && OneLine(indentation)
    ensures Counted(StartLine(pen, indentation))
  {
    hide ByteLength, LineWidth;
    BytesEnough(indentation);
    var p := if AtLineStart(pen) then pen else Newline(pen);
    NewlineCounted(pen);
    CountedMore(p, StartLine(pen, indentation), indentation);
  }

  lemma WriteCounted(style: Style, pen: Pen, e: Entry)
    requires Counted(pen) && Tidy(e.doc)
    ensures Counted(PenAfter(style, pen, e))
  {
    hide LineWidth, RawColumn, WriteToken, StartLine;
    NewlineCounted(pen);
    match e.doc
    case Token(text, kind, parent) => TokenCounted(style, pen, text, kind, parent, e.indent);
    case Raw(text) =>
      RawOnLine(pen.column, text);
      CountedMore(pen, PenAfter(style, pen, e), text);
    case LineStart(indentation) => LineStartCounted(pen, indentation);
    case BlankLine => NewlineCounted(Newline(pen));
    case Line => CountedMore(pen, Space(pen), " ");
    case PreservedLine => CountedMore(pen, Space(pen), " ");
    case _ =>
  }

  lemma WriteGrounded(style: Style, pen: Pen, e: Entry)
    requires Grounded(pen) && Tidy(e.doc)
    ensures Grounded(PenAfter(style, pen, e))
  {
    hide ByteLength;
    var pen' := PenAfter(style, pen, e);
    match e.doc
    case Token(text, _, _) =>
      IndentsOneLine(style, e.indent);
      NoBytes();
      LastNoBreak(IndentText(style, e.indent));
      LastNoBreak(text);
    case Raw(text) =>
      RawOnLine(pen.column, text);
      LastNoBreak(text);
    case LineStart(indentation) =>
      NoBytes();
      LastNoBreak(indentation);
    case _ =>
  }

  lemma LastNoBreak(text: string)
    requires OneLine(text)
    ensures text != "" ==> text[|text| - 1] != NEWLINE
  {
    if text != "" {
      assert text[|text| - 1] in text;
    }
  }

  /** The pen and the stack after `n` steps. */
  function Reached(style: Style, pen: Pen, stack: seq<Entry>, n: nat): (Pen, seq<Entry>)
    decreases n
  {
    if n == 0 || stack == [] then (pen, stack)
    else
      var e, below := stack[|stack| - 1], stack[..|stack| - 1];
      Reached(style, PenAfter(style, pen, e), below + EntriesAfter(style, pen, e, below), n - 1)
  }

  lemma {:induction false} ReachedKeeps(style: Style, pen: Pen, stack: seq<Entry>, n: nat)
    requires Counted(pen) && Grounded(pen) && TidyStack(stack)
    ensures var at := Reached(style, pen, stack, n);
            && Counted(at.0) && Grounded(at.0) && TidyStack(at.1) && Extends(pen, at.0)
            && Drained(style, at.0, at.1) == Drained(style, pen, stack)
    decreases n
  {
    hide Counted, Grounded, PenAfter, EntriesAfter, Tidy;
    if n > 0 && stack != [] {
      var e, below := stack[|stack| - 1], stack[..|stack| - 1];
      assert stack == below + [e];
      TidyParts(below, e);
      EntriesTidy(style, pen, e, below);
      WriteCounted(style, pen, e);
      WriteGrounded(style, pen, e);
      WriteExtends(style, pen, e);
      ReachedKeeps(style, PenAfter(style, pen, e), below + EntriesAfter(style, pen, e, below), n - 1);
      ExtendsTwice(pen, PenAfter(style, pen, e),
                   Reached(style, PenAfter(style, pen, e), below + EntriesAfter(style, pen, e, below), n - 1).0);
    }
  }

  /** Wherever rendering comes to a group, chooses it flat and the line began within the limit:
      the text so far, the group on one line, then the rest; and that line keeps within the limit. */
  lemma FlatGroupsKeepWithin(style: Style, doc: Doc, n: nat)
    requires Quiet(style) && Tidy(doc)
    ensures var at := Reached(style, Pen("", 0, "", ""), [Entry(0, Mode.Break, doc)], n);
            var pen, stack := at.0, at.1;
            stack != [] ==>
              var e, below := stack[|stack| - 1], stack[..|stack| - 1];
              && Rendered(style, doc) == Drained(style, pen, below + [e]).output
              && (e.doc.Group? && FitsGroup(style, pen, e.doc.inner, e.indent, below)
                  && Secure(style, pen, below, e.indent, e.doc.inner) ==>
                    && WrittenFlat(style, pen, below, e.indent, e.mode, e.doc.inner)
                    && KeepsWithin(style, pen, below, e.indent, e.mode, e.doc.inner))
  {
    hide Quiet, Drained, Reached, Tidy, FitsGroup, Secure, WrittenFlat, KeepsWithin;
    var start, first := Pen("", 0, "", ""), [Entry(0, Mode.Break, doc)];
    StartCounted();
    ReachedKeeps(style, start, first, n);
    var at := Reached(style, start, first, n);
    var pen, stack := at.0, at.1;
    if stack != [] {
      var e, below := stack[|stack| - 1], stack[..|stack| - 1];
      assert stack == below + [e];
      TidyParts(below, e);
      if e.doc.Group? && FitsGroup(style, pen, e.doc.inner, e.indent, below)
          && Secure(style, pen, below, e.indent, e.doc.inner) {
        ChosenFlatIsFlat(style, pen, below, e.indent, e.mode, e.doc.inner);
        ChosenFlatKeepsWithin(style, pen, below, e.indent, e.mode, e.doc.inner);
      }
    }
  }

  lemma StartCounted()
    ensures Counted(Pen("", 0, "", "")) && Grounded(Pen("", 0, "", ""))
  {}

  lemma DrainNothing(style: Style, pen: Pen)
    ensures Drained(style, pen, []) == pen
  {}
}
