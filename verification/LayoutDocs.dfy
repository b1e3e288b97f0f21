/** Documents of the formatter, the measuring of a line and the rendering machine. */
module LayoutDocs {
  import opened PascalSyntax

  // ---- Documents

  /** `FillRest` is the part of a `Fill` that is still to be rendered. */
  datatype Doc =
    | Empty
    | Token(text: string, kind: string, parent: string)
    | Raw(text: string)
    | LineStart(indentation: string)
    | Hardline
    | BlankLine
    | Line
    | PreservedLine
    | Softline
    | Concat(docs: seq<Doc>)
    | Indent(inner: Doc)
    | Group(inner: Doc)
    | IfBreak(broken: Doc, flat: Doc)
    | Fill(parts: seq<Doc>)
    | FillRest(parts: seq<Doc>)

  datatype Mode = Flat | Break

  datatype Entry = Entry(indent: nat, mode: Mode, doc: Doc)

  /** `needsSpace` says of two neighbouring tokens, by kind and parent kind, whether a space goes between them. */
  datatype Style = Style(maxLength: nat, indentSize: nat, tabs: bool,
                         needsSpace: (string, string, string, string) -> bool)

  // ---- Characters

  const NEWLINE: char := '\n'

  function Utf8Length(c: char): nat {
    var code := c as int;
    if code < 0x80 then 1 else if code < 0x800 then 2 else if code < 0x1_0000 then 3 else 4
  }

  /** The length of a text in bytes. */
  function ByteLength(text: string): nat {
    if text == "" then 0 else ByteLength(text[..|text| - 1]) + Utf8Length(text[|text| - 1])
  }

  /** Widths are in bytes: at least one for a character, and exactly one for ASCII. */
  lemma {:induction false} BytesOf(text: string)
    ensures |text| <= ByteLength(text) <= 4 * |text|
    ensures ByteLength(text) == |text| <==> forall c :: c in text ==> c as int < 128
  {
    if text != "" {
      var front, last := text[..|text| - 1], text[|text| - 1];
      BytesOf(front);
      assert text == front + [last] && last in text;
      assert forall c :: c in text <==> c in front || c == last;
      assert 1 <= Utf8Length(last) <= 4 && (Utf8Length(last) == 1 <==> last as int < 128);
    }
  }

  predicate IsSpace(c: char) {
    var code := c as int;
    || 0x9 <= code <= 0xD || code == 0x20 || code == 0x85 || code == 0xA0 || code == 0x1680
    || 0x2000 <= code <= 0x200A || code == 0x2028 || code == 0x2029 || code == 0x202F || code == 0x205F
    || code == 0x3000
  }

  predicate OneLine(text: string) {
    NEWLINE !in text
  }

  // ---- The pen

  /** What has been written, the column reached, and the last token. */
  datatype Pen = Pen(output: string, column: nat, kind: string, parent: string)

  predicate AtLineStart(pen: Pen) {
    pen.column == 0 || (pen.output != "" && pen.output[|pen.output| - 1] == NEWLINE)
  }

  function IndentWidth(style: Style, level: nat): nat {
    if style.tabs then level else level * style.indentSize
  }

  function IndentText(style: Style, level: nat): string {
    var c := if style.tabs then '\t' else ' ';
    seq(IndentWidth(style, level), _ => c)
  }

  function Newline(pen: Pen): Pen {
    pen.(output := pen.output + [NEWLINE], column := 0)
  }

  /** A space, and no token before what follows. */
  function Space(pen: Pen): Pen {
    Pen(pen.output + " ", pen.column + 1, "", "")
  }

  function WriteToken(style: Style, pen: Pen, text: string, kind: string, parent: string, indent: nat): Pen {
    if AtLineStart(pen) then
      Pen(pen.output + IndentText(style, indent) + text, IndentWidth(style, indent) + ByteLength(text), kind, parent)
    else if style.needsSpace(pen.kind, pen.parent, kind, parent) then
      Pen(pen.output + " " + text, pen.column + 1 + ByteLength(text), kind, parent)
    else Pen(pen.output + text, pen.column + ByteLength(text), kind, parent)
  }

  /** The column behind a raw text, in characters from its last line break on. */
  function RawColumn(column: nat, text: string): nat {
    if text == "" then column
    else if text[|text| - 1] == NEWLINE then 0
    else RawColumn(column, text[..|text| - 1]) + 1
  }

  function WriteRaw(pen: Pen, text: string): Pen {
    var spaced := text != "" && IsSpace(text[|text| - 1]);
    Pen(pen.output + text, RawColumn(pen.column, text), if spaced then "" else pen.kind, if spaced then ""
        else pen.parent)
  }

  function StartLine(pen: Pen, indentation: string): Pen {
    var p := if AtLineStart(pen) then pen else Newline(pen);
    p.(output := p.output + indentation, column := p.column + ByteLength(indentation))
  }

  // ---- Measuring

  /** The space left on a line and the last token on it. */
  datatype Meter = Meter(remaining: nat, kind: string, parent: string)

  function Left(style: Style, column: nat): nat {
    if column <= style.maxLength then style.maxLength - column else 0
  }

  /** The space left from where the pen will go on. */
  function MeterAt(style: Style, pen: Pen, indent: nat): Meter {
    if AtLineStart(pen) then Meter(Left(style, IndentWidth(style, indent)), "", "")
    else Meter(Left(style, pen.column), pen.kind, pen.parent)
  }

  function FitsToken(style: Style, m: Meter, text: string, kind: string, parent: string): Option<Meter> {
    var needed := (if style.needsSpace(m.kind, m.parent, kind, parent) then 1 else 0) + ByteLength(text);
    if needed > m.remaining then None else Some(Meter(m.remaining - needed, kind, parent))
  }

  function FitsRaw(m: Meter, text: string): Option<Meter> {
    if ByteLength(text) > m.remaining then None else Some(m.(remaining := m.remaining - ByteLength(text)))
  }

  function FitsSpace(m: Meter): Option<Meter> {
    if m.remaining == 0 then None else Some(m.(remaining := m.remaining - 1))
  }

  /** What is left when a document is written flat; a forced line break starts a line of its own. */
  function FitsInner(style: Style, doc: Doc, indent: nat, m: Meter): Option<Meter>
    decreases doc
  {
    match doc
    case Empty => Some(m)
    case Token(text, kind, parent) => FitsToken(style, m, text, kind, parent)
    case Raw(text) => if OneLine(text) then FitsRaw(m, text) else Some(m)
    case Hardline => Some(Meter(Left(style, IndentWidth(style, indent)), "", ""))
    case BlankLine => Some(Meter(Left(style, IndentWidth(style, indent)), "", ""))
    case LineStart(_) => Some(Meter(Left(style, IndentWidth(style, indent)), "", ""))
    case Line => FitsSpace(m)
    case PreservedLine => FitsSpace(m)
    case Softline => Some(m)
    case Concat(docs) => FitsAll(style, docs, indent, m)
    case Indent(inner) => FitsInner(style, inner, indent + 1, m)
    case Group(inner) => FitsInner(style, inner, indent, m)
    case IfBreak(_, flat) => FitsInner(style, flat, indent, m)
    case Fill(parts) => FitsAll(style, parts, indent, m)
    case FillRest(parts) => FitsAll(style, parts, indent, m)
  }

  function FitsAll(style: Style, docs: seq<Doc>, indent: nat, m: Meter): Option<Meter>
    decreases docs
  {
    if docs == [] then Some(m)
    else
      var first := FitsInner(style, docs[0], indent, m);
      if first.None? then None else FitsAll(style, docs[1..], indent, first.value)
  }

  datatype Verdict = Overflow | LineBreak | Continue(meter: Meter)

  function AsVerdict(fits: Option<Meter>): Verdict {
    if fits.None? then Overflow else Verdict.Continue(fits.value)
  }

  /** What comes after on the line, up to its end. */
  function FitsItem(style: Style, doc: Doc, indent: nat, mode: Mode, m: Meter): Verdict
    decreases doc
  {
    match doc
    case Empty => Verdict.Continue(m)
    case Hardline => LineBreak
    case BlankLine => LineBreak
    case LineStart(_) => LineBreak
    case Token(text, kind, parent) => AsVerdict(FitsToken(style, m, text, kind, parent))
    case Raw(text) => if OneLine(text) then AsVerdict(FitsRaw(m, text)) else LineBreak
    case Line => if mode.Flat? then AsVerdict(FitsSpace(m)) else LineBreak
    case PreservedLine => if mode.Flat? then AsVerdict(FitsSpace(m)) else LineBreak
    case Softline => if mode.Flat? then Verdict.Continue(m) else LineBreak
    case Concat(docs) => FitsItems(style, docs, indent, mode, m)
    case Indent(inner) => FitsItem(style, inner, indent + 1, mode, m)
    case Group(inner) => AsVerdict(FitsInner(style, inner, indent, m))
    case IfBreak(broken, flat) => FitsItem(style, if mode.Flat? then flat else broken, indent, mode, m)
    case Fill(parts) => FitsItems(style, parts, indent, Flat, m)
    case FillRest(parts) => FitsItems(style, parts, indent, Flat, m)
  }

  function FitsItems(style: Style, docs: seq<Doc>, indent: nat, mode: Mode, m: Meter): Verdict
    decreases docs
  {
    if docs == [] then Verdict.Continue(m)
    else
      var first := FitsItem(style, docs[0], indent, mode, m);
      if !first.Continue? then first else FitsItems(style, docs[1..], indent, mode, first.meter)
  }

  /** The whole rest of the line; the top of the stack comes first. */
  function FitsRest(style: Style, stack: seq<Entry>, m: Meter): Verdict
    decreases |stack|
  {
    if stack == [] then Verdict.Continue(m)
    else
      var e := stack[|stack| - 1];
      var first := FitsItem(style, e.doc, e.indent, e.mode, m);
      if !first.Continue? then first else FitsRest(style, stack[..|stack| - 1], first.meter)
  }

  /** Whether a group goes on the line together with what follows it there. */
  predicate FitsGroup(style: Style, pen: Pen, inner: Doc, indent: nat, stack: seq<Entry>) {
    var fits := FitsInner(style, inner, indent, MeterAt(style, pen, indent));
    fits.Some? && !FitsRest(style, stack, fits.value).Overflow?
  }

  // ---- Rendering

  /** Stack entries for documents in order, the first on top. */
  function Stacked(docs: seq<Doc>, indent: nat, mode: Mode): seq<Entry> {
    if docs == [] then [] else Stacked(docs[1..], indent, mode) + [Entry(indent, mode, docs[0])]
  }

  /** Whether the separator and what follows it go on the line. */
  predicate FitsPair(style: Style, pen: Pen, indent: nat, sep: Doc, content: Doc) {
    var fits := FitsInner(style, sep, indent, MeterAt(style, pen, indent));
    fits.Some? && FitsInner(style, content, indent, fits.value).Some?
  }

  function SeparatorMode(style: Style, pen: Pen, indent: nat, mode: Mode, sep: Doc, content: Doc): Mode {
    if sep.Hardline? || (mode.Break? && sep.PreservedLine?) then Mode.Break
    else if FitsPair(style, pen, indent, sep, content) then Flat
    else Mode.Break
  }

  function FillEntries(style: Style, pen: Pen, indent: nat, mode: Mode, parts: seq<Doc>): seq<Entry> {
    if |parts| < 2 then Stacked(parts, indent, Flat)
    else
      (if |parts| > 2 then [Entry(indent, mode, FillRest(parts[2..]))] else [])
      + [Entry(indent, Flat, parts[1]),
         Entry(indent, SeparatorMode(style, pen, indent, mode, parts[0], parts[1]), parts[0])]
  }

  /** What an entry writes. */
  function PenAfter(style: Style, pen: Pen, e: Entry): Pen {
    match e.doc
    case Token(text, kind, parent) => WriteToken(style, pen, text, kind, parent, e.indent)
    case Raw(text) => WriteRaw(pen, text)
    case LineStart(indentation) => StartLine(pen, indentation)
    case Hardline => Newline(pen)
    case BlankLine => Newline(pen).(output := pen.output + [NEWLINE] + [NEWLINE])
    case Line => if e.mode.Flat? then Space(pen) else Newline(pen)
    case PreservedLine => if e.mode.Flat? then Space(pen) else Newline(pen)
    case Softline => if e.mode.Flat? then pen else Newline(pen)
    case _ => pen
  }

  /** What an entry leaves to be rendered in its place; `below` is the rest of the stack. */
  function EntriesAfter(style: Style, pen: Pen, e: Entry, below: seq<Entry>): seq<Entry> {
    match e.doc
    case Concat(docs) => Stacked(docs, e.indent, e.mode)
    case Indent(inner) => [Entry(e.indent + 1, e.mode, inner)]
    case Group(inner) => [Entry(e.indent, if FitsGroup(style, pen, inner, e.indent, below) then Flat
                                else Mode.Break, inner)]
    case IfBreak(broken, flat) => [Entry(e.indent, e.mode, if e.mode.Flat? then flat else broken)]
    case Fill(parts) => [Entry(e.indent, e.mode, FillRest(parts))]
    case FillRest(parts) => FillEntries(style, pen, e.indent, e.mode, parts)
    case _ => []
  }

  function Size(doc: Doc): nat
    decreases doc
  {
    match doc
    case Concat(docs) => 1 + Sizes(docs)
    case Indent(inner) => 1 + Size(inner)
    case Group(inner) => 1 + Size(inner)
    case IfBreak(broken, flat) => 1 + Size(broken) + Size(flat)
    case Fill(parts) => 2 + |parts| + Sizes(parts)
    case FillRest(parts) => 1 + |parts| + Sizes(parts)
    case _ => 1
  }

  function Sizes(docs: seq<Doc>): nat
    decreases docs
  {
    if docs == [] then 0 else Size(docs[0]) + Sizes(docs[1..])
  }

  function StackSize(stack: seq<Entry>): nat {
    if stack == [] then 0 else StackSize(stack[..|stack| - 1]) + Size(stack[|stack| - 1].doc)
  }

  lemma {:induction false} StackSizeAdds(a: seq<Entry>, b: seq<Entry>)
    ensures StackSize(a + b) == StackSize(a) + StackSize(b)
    decreases |b|
  {
    hide Size;
    if b == [] {
      assert a + b == a;
    } else {
      var n := |b| - 1;
      StackSizeAdds(a, b[..n]);
      assert (a + b)[..|a + b| - 1] == a + b[..n];
    }
  }

  lemma OneSize(e: Entry)
    ensures StackSize([e]) == Size(e.doc)
  {
    assert [e][..0] == [];
    assert StackSize([e][..0]) == 0;
  }

  lemma {:induction false} StackedSize(docs: seq<Doc>, indent: nat, mode: Mode)
    ensures StackSize(Stacked(docs, indent, mode)) == Sizes(docs)
  {
    hide Size;
    if docs != [] {
      StackedSize(docs[1..], indent, mode);
      StackSizeAdds(Stacked(docs[1..], indent, mode), [Entry(indent, mode, docs[0])]);
      OneSize(Entry(indent, mode, docs[0]));
    }
  }

  lemma FillSize(style: Style, pen: Pen, indent: nat, mode: Mode, parts: seq<Doc>)
    ensures StackSize(FillEntries(style, pen, indent, mode, parts)) < Size(FillRest(parts))
  {
    hide SeparatorMode;
    if |parts| < 2 {
      StackedSize(parts, indent, Flat);
    } else {
      var content, sep := Entry(indent, Flat, parts[1]),
          Entry(indent, SeparatorMode(style, pen, indent, mode, parts[0], parts[1]), parts[0]);
      var rest := if |parts| > 2 then [Entry(indent, mode, FillRest(parts[2..]))] else [];
      OneSize(content);
      OneSize(sep);
      StackSizeAdds([content], [sep]);
      assert [content] + [sep] == [content, sep];
      StackSizeAdds(rest, [content, sep]);
      assert parts[1..][0] == parts[1] && parts[1..][1..] == parts[2..];
      if |parts| > 2 {
        OneSize(rest[0]);
        assert rest == [rest[0]];
      }
      assert Sizes(parts) == Size(parts[0]) + (Size(parts[1]) + Sizes(parts[2..]));
      assert StackSize(rest) <= |parts| - 2 + 1 + Sizes(parts[2..]);
      assert FillEntries(style, pen, indent, mode, parts) == rest + [content, sep];
    }
  }

  lemma SomeSize(doc: Doc)
    ensures Size(doc) >= 1
  {}

  /** Every step leaves less to render. */
  lemma StepShrinks(style: Style, pen: Pen, e: Entry, below: seq<Entry>)
    ensures StackSize(EntriesAfter(style, pen, e, below)) < Size(e.doc)
  {
    hide FitsGroup, FillEntries;
    match e.doc
    case Concat(docs) => StackedSize(docs, e.indent, e.mode);
    case Indent(inner) => OneSize(Entry(e.indent + 1, e.mode, inner));
    case Group(inner) => OneSize(EntriesAfter(style, pen, e, below)[0]); SomeSize(inner);
    case IfBreak(broken, flat) => OneSize(EntriesAfter(style, pen, e, below)[0]); SomeSize(broken); SomeSize(flat);
    case Fill(parts) => OneSize(Entry(e.indent, e.mode, FillRest(parts)));
    case FillRest(parts) => FillSize(style, pen, e.indent, e.mode, parts);
    case _ =>
  }

  /** What is written when the stack is rendered from the top until nothing is left. */
  function Drained(style: Style, pen: Pen, stack: seq<Entry>): Pen
    decreases StackSize(stack)
  {
    if stack == [] then pen
    else
      var e, below := stack[|stack| - 1], stack[..|stack| - 1];
      var more := EntriesAfter(style, pen, e, below);
      StepShrinks(style, pen, e, below);
      StackSizeAdds(below, more);
      Drained(style, PenAfter(style, pen, e), below + more)
  }

  /** The text of a document. */
  function Rendered(style: Style, doc: Doc): string {
    Drained(style, Pen("", 0, "", ""), [Entry(0, Mode.Break, doc)]).output
  }
}
