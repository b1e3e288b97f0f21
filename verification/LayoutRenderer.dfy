/** The renderer: a stack of documents is drained into the output. */
module LayoutRenderer {
  import opened PascalSyntax
  import opened LayoutDocs
  import opened LayoutMeaning

  /** What is left of a line while documents are measured against it. */
  class LineGauge {
    const style: Style
    var remaining: nat
    var kind: string
    var parent: string

    ghost function Value(): Meter
      reads this
    {
      Meter(remaining, kind, parent)
    }

    constructor (style: Style, meter: Meter)
      ensures this.style == style && Value() == meter
    {
      this.style, remaining, kind, parent := style, meter.remaining, meter.kind, meter.parent;
    }

    /** The gauge has taken this in. */
    ghost predicate Took(spec: Option<Meter>, fits: bool)
      reads this
    {
      fits == spec.Some? && (fits ==> Value() == spec.value)
    }

    method Token(text: string, tokenKind: string, tokenParent: string) returns (fits: bool)
      modifies this
      ensures Took(FitsToken(style, old(Value()), text, tokenKind, tokenParent), fits)
    {
      var needed := ByteLength(text);
      if style.needsSpace(kind, parent, tokenKind, tokenParent) {
        needed := needed + 1;
      }
      if needed > remaining {
        return false;
      }
      remaining, kind, parent := remaining - needed, tokenKind, tokenParent;
      fits := true;
    }

    method Width(width: nat) returns (fits: bool)
      modifies this
      ensures Took(if width > old(remaining) then None
                   else Some(old(Value()).(remaining := old(remaining) - width)), fits)
    {
      if width > remaining {
        return false;
      }
      remaining := remaining - width;
      fits := true;
    }

    method Inner(doc: Doc, indent: nat) returns (fits: bool)
      modifies this
      ensures Took(FitsInner(style, doc, indent, old(Value())), fits)
      decreases doc, 1
    {
      hide FitsToken, ByteLength, FitsAll;
      match doc
      case Empty => fits := true;
      case Softline => fits := true;
      case Token(text, k, p) => fits := Token(text, k, p);
      case Raw(text) =>
        if OneLine(text) {
          fits := Width(ByteLength(text));
        } else {
          fits := true;
        }
      case Hardline => fits := Restart(indent);
      case BlankLine => fits := Restart(indent);
      case LineStart(_) => fits := Restart(indent);
      case Line => fits := Width(1);
      case PreservedLine => fits := Width(1);
      case Concat(docs) => fits := All(docs, indent);
      case Indent(inner) => fits := Inner(inner, indent + 1);
      case Group(inner) => fits := Inner(inner, indent);
      case IfBreak(_, flat) => fits := Inner(flat, indent);
      case Fill(parts) => fits := All(parts, indent);
      case FillRest(parts) => fits := All(parts, indent);
    }

    method Restart(indent: nat) returns (fits: bool)
      modifies this
      ensures fits && Value() == Meter(Left(style, IndentWidth(style, indent)), "", "")
    {
      remaining, kind, parent := Left(style, IndentWidth(style, indent)), "", "";
      fits := true;
    }

    method All(docs: seq<Doc>, indent: nat) returns (fits: bool)
      modifies this
      ensures Took(FitsAll(style, docs, indent, old(Value())), fits)
      decreases docs, 0
    {
      hide FitsInner;
      ghost var before := Value();
      var i := 0;
      while i < |docs|
        invariant 0 <= i <= |docs| && FitsAll(style, docs, indent, before) == FitsAll(style, docs[i..], indent, Value())
      {
        assert docs[i..][0] == docs[i] && docs[i..][1..] == docs[i + 1..];
        fits := Inner(docs[i], indent);
        if !fits {
          return;
        }
        i := i + 1;
      }
      fits := true;
    }

    /** The gauge after an entry of the rest of the line. */
    ghost predicate Judged(spec: Verdict, verdict: Verdict)
      reads this
    {
      verdict == spec && (verdict.Continue? ==> Value() == verdict.meter)
    }

    method AsVerdict(fits: bool) returns (verdict: Verdict)
      ensures verdict == if fits then Verdict.Continue(Value()) else Overflow
    {
      verdict := if fits then Verdict.Continue(Meter(remaining, kind, parent)) else Overflow;
    }

    method Item(doc: Doc, indent: nat, mode: Mode) returns (verdict: Verdict)
      modifies this
      ensures Judged(FitsItem(style, doc, indent, mode, old(Value())), verdict)
      decreases doc, 1
    {
      hide FitsToken, ByteLength, FitsItems, FitsInner;
      var fits := true;
      match doc
      case Empty => verdict := AsVerdict(true);
      case Hardline => verdict := LineBreak;
      case BlankLine => verdict := LineBreak;
      case LineStart(_) => verdict := LineBreak;
      case Token(text, k, p) =>
        fits := Token(text, k, p);
        verdict := AsVerdict(fits);
      case Raw(text) =>
        if !OneLine(text) {
          return LineBreak;
        }
        fits := Width(ByteLength(text));
        verdict := AsVerdict(fits);
      case Line => verdict := Blank(mode);
      case PreservedLine => verdict := Blank(mode);
      case Softline =>
        if mode.Break? {
          return LineBreak;
        }
        verdict := AsVerdict(true);
      case Concat(docs) => verdict := Items(docs, indent, mode);
      case Indent(inner) => verdict := Item(inner, indent + 1, mode);
      case Group(inner) =>
        fits := Inner(inner, indent);
        verdict := AsVerdict(fits);
      case IfBreak(broken, flat) =>
        if mode.Flat? {
          verdict := Item(flat, indent, mode);
        } else {
          verdict := Item(broken, indent, mode);
        }
      case Fill(parts) => verdict := Items(parts, indent, Flat);
      case FillRest(parts) => verdict := Items(parts, indent, Flat);
    }

    method Blank(mode: Mode) returns (verdict: Verdict)
      modifies this
      ensures Judged(FitsItem(style, Line, 0, mode, old(Value())), verdict)
    {
      if mode.Break? {
        return LineBreak;
      }
      var fits := Width(1);
      verdict := AsVerdict(fits);
    }

    method Items(docs: seq<Doc>, indent: nat, mode: Mode) returns (verdict: Verdict)
      modifies this
      ensures Judged(FitsItems(style, docs, indent, mode, old(Value())), verdict)
      decreases docs, 0
    {
      hide FitsItem;
      ghost var before := Value();
      var i := 0;
      while i < |docs|
        invariant 0 <= i <= |docs|
        invariant FitsItems(style, docs, indent, mode, before) == FitsItems(style, docs[i..], indent, mode, Value())
      {
        assert docs[i..][0] == docs[i] && docs[i..][1..] == docs[i + 1..];
        verdict := Item(docs[i], indent, mode);
        if !verdict.Continue? {
          return;
        }
        i := i + 1;
      }
      verdict := AsVerdict(true);
    }

    /** The entries below, the top one first, up to the end of the line. */
    method Rest(stack: seq<Entry>) returns (fits: bool)
      modifies this
      ensures fits == !FitsRest(style, stack, old(Value())).Overflow?
    {
      hide FitsItem;
      ghost var before := Value();
      var n := |stack|;
      assert stack[..n] == stack;
      while n > 0
        invariant 0 <= n <= |stack| && FitsRest(style, stack, before) == FitsRest(style, stack[..n], Value())
      {
        var e := stack[n - 1];
        assert stack[..n][n - 1] == e && stack[..n][..n - 1] == stack[..n - 1];
        var verdict := Item(e.doc, e.indent, e.mode);
        if !verdict.Continue? {
          return verdict.LineBreak?;
        }
        n := n - 1;
      }
      fits := true;
    }
  }

  class Renderer {
    const style: Style
    var output: string
    var column: nat
    var kind: string
    var parent: string

    ghost function State(): Pen
      reads this
    {
      Pen(output, column, kind, parent)
    }

    constructor (style: Style)
      ensures this.style == style && State() == Pen("", 0, "", "")
    {
      this.style, output, column, kind, parent := style, "", 0, "", "";
    }

    method StartsLine() returns (start: bool)
      ensures start == AtLineStart(State())
    {
      start := column == 0 || (output != "" && output[|output| - 1] == NEWLINE);
    }

    method EmitNewline()
      modifies this
      ensures State() == Newline(old(State()))
    {
      output, column := output + [NEWLINE], 0;
    }

    method EmitSpace()
      modifies this
      ensures State() == Space(old(State()))
    {
      output, column, kind, parent := output + " ", column + 1, "", "";
    }

    method EmitToken(text: string, tokenKind: string, tokenParent: string, indent: nat)
      modifies this
      ensures State() == WriteToken(style, old(State()), text, tokenKind, tokenParent, indent)
      ensures forall ps :: old(State()) == PenOf(style, ps) ==>
                State() == PenOf(style, ps + [Word(text, tokenKind, tokenParent, indent)])
    {
      forall ps
        ensures WriteToken(style, PenOf(style, ps), text, tokenKind, tokenParent, indent)
                == PenOf(style, ps + [Word(text, tokenKind, tokenParent, indent)])
      {
        WordWritten(style, ps, text, tokenKind, tokenParent, indent);
      }
      hide PenOf;
      var start := StartsLine();
      if start {
        output, column := output + IndentText(style, indent), IndentWidth(style, indent);
      } else if style.needsSpace(kind, parent, tokenKind, tokenParent) {
        output, column := output + " ", column + 1;
      }
      output, column := output + text, column + ByteLength(text);
      kind, parent := tokenKind, tokenParent;
    }

    method EmitRaw(text: string)
      modifies this
      ensures State() == WriteRaw(old(State()), text)
    {
      var i := 0;
      ghost var before := column;
      while i < |text|
        invariant 0 <= i <= |text| && column == RawColumn(before, text[..i])
        invariant output == old(output) && kind == old(kind) && parent == old(parent)
      {
        assert text[..i + 1][..i] == text[..i];
        column := if text[i] == NEWLINE then 0 else column + 1;
        i := i + 1;
      }
      assert text[..i] == text;
      if text != "" && IsSpace(text[|text| - 1]) {
        kind, parent := "", "";
      }
      output := output + text;
    }

    method EmitLineStart(indentation: string)
      modifies this
      ensures State() == StartLine(old(State()), indentation)
    {
      var start := StartsLine();
      if !start {
        EmitNewline();
      }
      output, column := output + indentation, column + ByteLength(indentation);
    }

    method NewGauge(indent: nat) returns (gauge: LineGauge)
      ensures fresh(gauge) && gauge.style == style && gauge.Value() == MeterAt(style, State(), indent)
    {
      var start := StartsLine();
      gauge := new LineGauge(style, if start then Meter(Left(style, IndentWidth(style, indent)), "", "")
                                    else Meter(Left(style, column), kind, parent));
    }

    method GroupFits(inner: Doc, indent: nat, stack: seq<Entry>) returns (fits: bool)
      ensures fits == FitsGroup(style, State(), inner, indent, stack)
    {
      hide FitsInner, FitsRest, MeterAt;
      var gauge := NewGauge(indent);
      fits := gauge.Inner(inner, indent);
      if fits {
        fits := gauge.Rest(stack);
      }
    }

    method PairFits(sep: Doc, content: Doc, indent: nat) returns (fits: bool)
      ensures fits == FitsPair(style, State(), indent, sep, content)
    {
      hide FitsInner, MeterAt;
      var gauge := NewGauge(indent);
      fits := gauge.Inner(sep, indent);
      if fits {
        fits := gauge.Inner(content, indent);
      }
    }

    method ModeOfSeparator(sep: Doc, content: Doc, indent: nat, mode: Mode) returns (sepMode: Mode)
      ensures sepMode == SeparatorMode(style, State(), indent, mode, sep, content)
    {
      hide FitsPair;
      if sep.Hardline? || (mode.Break? && sep.PreservedLine?) {
        return Mode.Break;
      }
      var fits := PairFits(sep, content, indent);
      sepMode := if fits then Flat else Mode.Break;
    }

    /** Documents onto the stack, the last first. */
    method PushAll(docs: seq<Doc>, indent: nat, mode: Mode) returns (entries: seq<Entry>)
      ensures entries == Stacked(docs, indent, mode)
    {
      entries := [];
      var i := |docs|;
      while i > 0
        invariant 0 <= i <= |docs| && entries == Stacked(docs[i..], indent, mode)
      {
        i := i - 1;
        assert docs[i..][0] == docs[i] && docs[i..][1..] == docs[i + 1..];
        entries := entries + [Entry(indent, mode, docs[i])];
      }
      assert docs[0..] == docs;
    }

    method FillPair(parts: seq<Doc>, indent: nat, mode: Mode) returns (entries: seq<Entry>)
      ensures entries == FillEntries(style, State(), indent, mode, parts)
    {
      hide SeparatorMode, Stacked;
      if |parts| < 2 {
        entries := PushAll(parts, indent, Flat);
        return;
      }
      var sepMode := ModeOfSeparator(parts[0], parts[1], indent, mode);
      entries := if |parts| > 2 then [Entry(indent, mode, FillRest(parts[2..]))] else [];
      entries := entries + [Entry(indent, Flat, parts[1]), Entry(indent, sepMode, parts[0])];
    }

    method Write(e: Entry)
      modifies this
      ensures State() == PenAfter(style, old(State()), e)
    {
      hide WriteToken, WriteRaw, StartLine;
      match e.doc
      case Token(text, k, p) => EmitToken(text, k, p, e.indent);
      case Raw(text) => EmitRaw(text);
      case LineStart(indentation) => EmitLineStart(indentation);
      case Hardline => EmitNewline();
      case BlankLine =>
        EmitNewline();
        output := output + [NEWLINE];
      case Line => Blank(e.mode);
      case PreservedLine => Blank(e.mode);
      case Softline =>
        if e.mode.Break? {
          EmitNewline();
        }
      case _ =>
    }

    method Blank(mode: Mode)
      modifies this
      ensures State() == if mode.Flat? then Space(old(State())) else Newline(old(State()))
    {
      if mode.Flat? {
        EmitSpace();
      } else {
        EmitNewline();
      }
    }

    method Unfold(e: Entry, below: seq<Entry>) returns (entries: seq<Entry>)
      ensures entries == EntriesAfter(style, State(), e, below)
    {
      hide FitsGroup, FillEntries, Stacked;
      match e.doc
      case Concat(docs) => entries := PushAll(docs, e.indent, e.mode);
      case Indent(inner) => entries := [Entry(e.indent + 1, e.mode, inner)];
      case Group(inner) =>
        var fits := GroupFits(inner, e.indent, below);
        entries := [Entry(e.indent, if fits then Flat else Mode.Break, inner)];
      case IfBreak(broken, flat) => entries := [Entry(e.indent, e.mode, if e.mode.Flat? then flat else broken)];
      case Fill(parts) => entries := [Entry(e.indent, e.mode, FillRest(parts))];
      case FillRest(parts) => entries := FillPair(parts, e.indent, e.mode);
      case _ => entries := [];
    }

    method Drain(stack0: seq<Entry>)
      modifies this
      ensures State() == Drained(style, old(State()), stack0)
    {
      hide EntriesAfter, PenAfter;
      var stack := stack0;
      while stack != []
        invariant Drained(style, State(), stack) == Drained(style, old(State()), stack0)
        decreases StackSize(stack)
      {
        var e, below := stack[|stack| - 1], stack[..|stack| - 1];
        StepShrinks(style, State(), e, below);
        var more := Unfold(e, below);
        StackSizeAdds(below, more);
        Write(e);
        stack := below + more;
      }
    }
  }

  /** The text of a document. */
  method Render(style: Style, doc: Doc) returns (text: string)
    ensures text == Rendered(style, doc) == TextOf(style, Layout(style, doc))
  {
    RenderedIsLaidOut(style, doc);
    hide Drained, TextOf, Layout;
    var renderer := new Renderer(style);
    renderer.Drain([Entry(0, Mode.Break, doc)]);
    text := renderer.output;
  }
}
