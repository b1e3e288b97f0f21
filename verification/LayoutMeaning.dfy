/**
  What a rendered document is, without pen or stack.

  A layout is a list of pieces: words, verbatim texts, line breaks and blanks, in the order of the
  document. The text of a layout and the width of its last line are read off the list. Which layout
  a document gets is a recursion over the document; a group is flat exactly when its pieces, and
  those that follow on the line, fit.
  */
module LayoutMeaning {
  import opened PascalSyntax
  import opened LayoutDocs
  import opened LayoutLaws
  import opened LineStarts
  import opened LayoutTheorems

  /** A word knows its level, a line break the level of what comes next. */
  datatype Piece =
    | Word(text: string, kind: string, parent: string, level: nat)
    | Verbatim(text: string)
    | Margin(indentation: string)
    | NewLine(level: nat)
    | Blank

  // ---- The text of a layout

  /** Nothing stands on the last line. */
  predicate Fresh(text: string) {
    text == "" || text[|text| - 1] == NEWLINE
  }

  /** Kind and parent of the word that the next one is spaced against; none if a blank came after it. */
  function LastWord(ps: seq<Piece>): (string, string) {
    if ps == [] then ("", "")
    else
      var rest, p := ps[..|ps| - 1], ps[|ps| - 1];
      match p
      case Word(_, kind, parent, _) => (kind, parent)
      case Blank => ("", "")
      case Verbatim(t) => if t != "" && IsSpace(t[|t| - 1]) then ("", "") else LastWord(rest)
      case _ => LastWord(rest)
  }

  function Repeat(c: char, n: nat): (s: string)
    ensures |s| == n && forall i :: 0 <= i < n ==> s[i] == c
  {
    seq(n, _ => c)
  }

  /** Tabs, or blanks by the indentation size. */
  function Indentation(style: Style, level: nat): string {
    if style.tabs then Repeat('\t', level) else Repeat(' ', level * style.indentSize)
  }

  /** What stands between the pieces so far and the next one. */
  function Lead(style: Style, ps: seq<Piece>, p: Piece): string
    decreases |ps|, 1
  {
    var start := Fresh(TextOf(style, ps));
    match p
    case Word(_, kind, parent, level) =>
      if start then Indentation(style, level)
      else if style.needsSpace(LastWord(ps).0, LastWord(ps).1, kind, parent) then " "
      else ""
    case Margin(_) => if start then "" else [NEWLINE]
    case _ => ""
  }

  function Own(p: Piece): string {
    match p
    case Word(text, _, _, _) => text
    case Verbatim(text) => text
    case Margin(indentation) => indentation
    case NewLine(_) => [NEWLINE]
    case Blank => " "
  }

  function TextOf(style: Style, ps: seq<Piece>): string
    decreases |ps|, 0
  {
    if ps == [] then ""
    else
      var rest, p := ps[..|ps| - 1], ps[|ps| - 1];
      TextOf(style, rest) + Lead(style, rest, p) + Own(p)
  }

  /** The characters behind the last line break. */
  function TailLength(text: string): nat {
    if text == "" || text[|text| - 1] == NEWLINE then 0 else TailLength(text[..|text| - 1]) + 1
  }

  /** The width of the last line: bytes of words and margins, characters of verbatim text. */
  function Width(style: Style, ps: seq<Piece>): nat {
    if ps == [] then 0
    else
      var rest, p := ps[..|ps| - 1], ps[|ps| - 1];
      match p
      case Word(text, _, _, _) =>
        (if Fresh(TextOf(style, rest)) then 0 else Width(style, rest)) + |Lead(style, rest, p)| + ByteLength(text)
      case Verbatim(text) => if OneLine(text) then Width(style, rest) + |text| else TailLength(text)
      case Margin(indentation) =>
        (if Lead(style, rest, p) == "" then Width(style, rest) else 0) + ByteLength(indentation)
      case NewLine(_) => 0
      case Blank => Width(style, rest) + 1
  }

  /** Each piece stands in the text in its place: behind the text so far and what leads to it. */
  lemma {:induction false} PieceStands(style: Style, ps: seq<Piece>, i: nat)
    requires i < |ps|
    ensures TextOf(style, ps[..i]) + Lead(style, ps[..i], ps[i]) + Own(ps[i]) <= TextOf(style, ps)
    decreases |ps|
  {
    hide Lead, Own;
    var n := |ps| - 1;
    if i == n {
      assert TextOf(style, ps[..n]) + Lead(style, ps[..n], ps[n]) + Own(ps[n]) == TextOf(style, ps);
    } else {
      assert ps[..n][..i] == ps[..i] && ps[..n][i] == ps[i];
      PieceStands(style, ps[..n], i);
      var a, b := TextOf(style, ps[..n]), Lead(style, ps[..n], ps[n]) + Own(ps[n]);
      assert TextOf(style, ps) == a + b;
    }
  }

  /** Between neighbouring words on a line stands one space if the table asks for it, and else nothing. */
  lemma WordsSpaced(style: Style, ps: seq<Piece>, i: nat)
    requires i + 1 < |ps| && ps[i].Word? && ps[i + 1].Word? && !Fresh(ps[i].text)
    ensures Lead(style, ps[..i + 1], ps[i + 1])
            == if style.needsSpace(ps[i].kind, ps[i].parent, ps[i + 1].kind, ps[i + 1].parent) then " " else ""
  {
    var front := ps[..i + 1];
    assert front[|front| - 1] == ps[i] && front[..|front| - 1] == ps[..i];
    var a, text := TextOf(style, ps[..i]) + Lead(style, ps[..i], ps[i]), ps[i].text;
    assert TextOf(style, front) == a + text && (a + text)[|a + text| - 1] == text[|text| - 1];
  }

  /** Behind a line break a word is indented, by tabs or by blanks. */
  lemma WordIndented(style: Style, ps: seq<Piece>, i: nat)
    requires i + 1 < |ps| && ps[i].NewLine? && ps[i + 1].Word?
    ensures var lead := Lead(style, ps[..i + 1], ps[i + 1]);
            && |lead| == ps[i + 1].level * (if style.tabs then 1 else style.indentSize)
            && forall j :: 0 <= j < |lead| ==> lead[j] == if style.tabs then '\t' else ' '
  {
    var front := ps[..i + 1];
    assert front[|front| - 1] == ps[i] && front[..|front| - 1] == ps[..i];
    var a := TextOf(style, ps[..i]) + Lead(style, ps[..i], ps[i]);
    assert TextOf(style, front) == a + [NEWLINE];
  }

  // ---- Measuring pieces

  /** The room behind a piece; a line break inside a group starts a line of its own. */
  function Measure(style: Style, m: Meter, p: Piece): Option<Meter> {
    match p
    case Word(text, kind, parent, _) =>
      var needed := (if style.needsSpace(m.kind, m.parent, kind, parent) then 1 else 0) + ByteLength(text);
      if needed <= m.remaining then Some(Meter(m.remaining - needed, kind, parent)) else None
    case Verbatim(text) =>
      if !OneLine(text) then Some(m)
      else if ByteLength(text) <= m.remaining then Some(m.(remaining := m.remaining - ByteLength(text)))
      else None
    case Blank => if m.remaining > 0 then Some(m.(remaining := m.remaining - 1)) else None
    case NewLine(level) => Some(Meter(Left(style, |Indentation(style, level)|), "", ""))
    case Margin(_) => Some(m)
  }

  function MeasureAll(style: Style, m: Meter, ps: seq<Piece>): Option<Meter>
    decreases |ps|
  {
    if ps == [] then Some(m)
    else
      var first := Measure(style, m, ps[0]);
      if first.None? then None else MeasureAll(style, first.value, ps[1..])
  }

  /** A piece of what follows; outside groups a line break ends the measured line. */
  datatype Ahead = Ahead(piece: Piece, grouped: bool)

  predicate EndsLine(a: Ahead) {
    !a.grouped && (a.piece.NewLine? || (a.piece.Verbatim? && !OneLine(a.piece.text)))
  }

  predicate RestFits(style: Style, m: Meter, rest: seq<Ahead>)
    decreases |rest|
  {
    if rest == [] || EndsLine(rest[0]) then true
    else
      var first := Measure(style, m, rest[0].piece);
      first.Some? && RestFits(style, first.value, rest[1..])
  }

  /** The pieces of a document as they are measured: everything flat, each forced line break one. */
  function FlatPieces(doc: Doc, indent: nat): seq<Piece>
    decreases doc
  {
    match doc
    case Token(text, kind, parent) => [Word(text, kind, parent, indent)]
    case Raw(text) => [Verbatim(text)]
    case LineStart(_) => [NewLine(indent)]
    case Hardline => [NewLine(indent)]
    case BlankLine => [NewLine(indent)]
    case Line => [Blank]
    case PreservedLine => [Blank]
    case Concat(docs) => AllFlatPieces(docs, indent)
    case Indent(inner) => FlatPieces(inner, indent + 1)
    case Group(inner) => FlatPieces(inner, indent)
    case IfBreak(_, flat) => FlatPieces(flat, indent)
    case Fill(parts) => AllFlatPieces(parts, indent)
    case FillRest(parts) => AllFlatPieces(parts, indent)
    case _ => []
  }

  function AllFlatPieces(docs: seq<Doc>, indent: nat): seq<Piece>
    decreases docs
  {
    if docs == [] then [] else FlatPieces(docs[0], indent) + AllFlatPieces(docs[1..], indent)
  }

  function Grouped(ps: seq<Piece>): seq<Ahead> {
    seq(|ps|, i requires 0 <= i < |ps| => Ahead(ps[i], true))
  }

  /** What a document adds to the rest of a line: groups and fills flat, the others in their mode. */
  function Upcoming(doc: Doc, indent: nat, mode: Mode): seq<Ahead>
    decreases doc
  {
    match doc
    case Token(text, kind, parent) => [Ahead(Word(text, kind, parent, indent), false)]
    case Raw(text) => [Ahead(Verbatim(text), false)]
    case LineStart(_) => [Ahead(NewLine(indent), false)]
    case Hardline => [Ahead(NewLine(indent), false)]
    case BlankLine => [Ahead(NewLine(indent), false)]
    case Line => [Ahead(if mode.Flat? then Blank else NewLine(indent), false)]
    case PreservedLine => [Ahead(if mode.Flat? then Blank else NewLine(indent), false)]
    case Softline => if mode.Flat? then [] else [Ahead(NewLine(indent), false)]
    case Concat(docs) => AllUpcoming(docs, indent, mode)
    case Indent(inner) => Upcoming(inner, indent + 1, mode)
    case Group(inner) => Grouped(FlatPieces(inner, indent))
    case IfBreak(broken, flat) => Upcoming(if mode.Flat? then flat else broken, indent, mode)
    case Fill(parts) => AllUpcoming(parts, indent, Flat)
    case FillRest(parts) => AllUpcoming(parts, indent, Flat)
    case Empty => []
  }

  function AllUpcoming(docs: seq<Doc>, indent: nat, mode: Mode): seq<Ahead>
    decreases docs
  {
    if docs == [] then [] else Upcoming(docs[0], indent, mode) + AllUpcoming(docs[1..], indent, mode)
  }

  /** The rest of the line, the top of the stack first. */
  function StackUpcoming(stack: seq<Entry>): seq<Ahead>
    decreases |stack|
  {
    if stack == [] then []
    else
      var e := stack[|stack| - 1];
      Upcoming(e.doc, e.indent, e.mode) + StackUpcoming(stack[..|stack| - 1])
  }

  /** The room behind what has been written; on a fresh line, behind the indentation. */
  function Room(style: Style, ps: seq<Piece>, indent: nat): Meter {
    if Fresh(TextOf(style, ps)) then Meter(Left(style, |Indentation(style, indent)|), "", "")
    else Meter(Left(style, Width(style, ps)), LastWord(ps).0, LastWord(ps).1)
  }

  /** The group goes on the line, together with what follows it there. */
  predicate GroupFits(style: Style, before: seq<Piece>, inner: Doc, indent: nat, after: seq<Entry>) {
    var m := MeasureAll(style, Room(style, before, indent), FlatPieces(inner, indent));
    m.Some? && RestFits(style, m.value, StackUpcoming(after))
  }

  /** A separator of a fill goes on the line, together with what it separates. */
  predicate PairFits(style: Style, before: seq<Piece>, sep: Doc, content: Doc, indent: nat) {
    MeasureAll(style, Room(style, before, indent), FlatPieces(sep, indent) + FlatPieces(content, indent)).Some?
  }

  // ---- Layouts

  /** The layout of a document behind the pieces so far and in front of what comes after. */
  function Lay(style: Style, before: seq<Piece>, doc: Doc, indent: nat, mode: Mode, after: seq<Entry>): seq<Piece>
    decreases doc
  {
    match doc
    case Empty => []
    case Token(text, kind, parent) => [Word(text, kind, parent, indent)]
    case Raw(text) => [Verbatim(text)]
    case LineStart(indentation) => [Margin(indentation)]
    case Hardline => [NewLine(indent)]
    case BlankLine => [NewLine(indent), NewLine(indent)]
    case Line => [if mode.Flat? then Blank else NewLine(indent)]
    case PreservedLine => [if mode.Flat? then Blank else NewLine(indent)]
    case Softline => if mode.Flat? then [] else [NewLine(indent)]
    case Concat(docs) => LayAll(style, before, docs, indent, mode, after)
    case Indent(inner) => Lay(style, before, inner, indent + 1, mode, after)
    case Group(inner) =>
      Lay(style, before, inner, indent,
          if GroupFits(style, before, inner, indent, after) then Flat else Mode.Break, after)
    case IfBreak(broken, flat) =>
      if mode.Flat? then Lay(style, before, flat, indent, mode, after)
      else Lay(style, before, broken, indent, mode, after)
    case Fill(parts) => LayFill(style, before, parts, indent, mode, after)
    case FillRest(parts) => LayFill(style, before, parts, indent, mode, after)
  }

  /** Documents in order; the later ones come after the first. */
  function LayAll(
    style: Style, before: seq<Piece>, docs: seq<Doc>, indent: nat, mode: Mode, after: seq<Entry>): seq<Piece>
    decreases docs, 0
  {
    if docs == [] then []
    else
      var first := Lay(style, before, docs[0], indent, mode, after + Stacked(docs[1..], indent, mode));
      first + LayAll(style, before + first, docs[1..], indent, mode, after)
  }

  /** A forced separator breaks, and so does one that does not fit with what it separates; the contents are flat. */
  function SeparatorBreaks(style: Style, before: seq<Piece>, sep: Doc, content: Doc, indent: nat, mode: Mode): bool {
    || sep.Hardline?
    || (mode.Break? && sep.PreservedLine?)
    || !PairFits(style, before, sep, content, indent)
  }

  function LayFill(
    style: Style, before: seq<Piece>, parts: seq<Doc>, indent: nat, mode: Mode, after: seq<Entry>): seq<Piece>
    decreases parts, 1
  {
    if |parts| < 2 then LayAll(style, before, parts, indent, Flat, after)
    else
      var later := after + if |parts| > 2 then [Entry(indent, mode, FillRest(parts[2..]))] else [];
      var breaks := SeparatorBreaks(style, before, parts[0], parts[1], indent, mode);
      var sep := Lay(style, before, parts[0], indent, if breaks then Mode.Break else Flat,
                     later + [Entry(indent, Flat, parts[1])]);
      var content := Lay(style, before + sep, parts[1], indent, Flat, later);
      sep + content + LayFill(style, before + sep + content, parts[2..], indent, mode, after)
  }

  /** The layout of a whole document. */
  function Layout(style: Style, doc: Doc): seq<Piece> {
    Lay(style, [], doc, 0, Mode.Break, [])
  }

  // ---- The pen says what the pieces say

  function PenOf(style: Style, ps: seq<Piece>): Pen {
    Pen(TextOf(style, ps), Width(style, ps), LastWord(ps).0, LastWord(ps).1)
  }

  lemma OnePiece(ps: seq<Piece>, p: Piece)
    ensures (ps + [p])[..|ps + [p]| - 1] == ps && (ps + [p])[|ps + [p]| - 1] == p
  {}

  /** A line of no width is fresh. */
  lemma {:induction false} NoWidth(style: Style, ps: seq<Piece>)
    requires Width(style, ps) == 0
    ensures Fresh(TextOf(style, ps))
    decreases |ps|
  {
    hide IsSpace, Indentation, LastWord, ByteLength;
    if ps != [] {
      var rest, p := ps[..|ps| - 1], ps[|ps| - 1];
      BytesEnough(Own(p));
      if p.Word? && Fresh(TextOf(style, rest)) {
        assert Lead(style, rest, p) == "" && Own(p) == "";
      } else if p.Margin? && Lead(style, rest, p) != "" {
        assert TextOf(style, ps) == TextOf(style, rest) + [NEWLINE] + "";
      } else if (p.Verbatim? && OneLine(p.text)) || p.Word? || p.Margin? {
        NoWidth(style, rest);
        assert Own(p) == "";
      }
    }
  }

  /** Nothing written has no width. */
  lemma {:induction false} NoText(style: Style, ps: seq<Piece>)
    requires TextOf(style, ps) == ""
    ensures Width(style, ps) == 0
    decreases |ps|
  {
    hide IsSpace, Indentation, LastWord;
    if ps != [] {
      var rest, p := ps[..|ps| - 1], ps[|ps| - 1];
      var a, b := TextOf(style, rest), Lead(style, rest, p);
      assert |a + b + Own(p)| == |a| + |b| + |Own(p)|;
      NoText(style, rest);
      NoBytes();
    }
  }

  lemma StartsFresh(style: Style, ps: seq<Piece>)
    ensures AtLineStart(PenOf(style, ps)) <==> Fresh(TextOf(style, ps))
  {
    hide TextOf, Width, LastWord;
    if Width(style, ps) == 0 {
      NoWidth(style, ps);
    }
    if TextOf(style, ps) == "" {
      NoText(style, ps);
    }
  }

  lemma IndentationIs(style: Style, level: nat)
    ensures IndentText(style, level) == Indentation(style, level)
    ensures |Indentation(style, level)| == IndentWidth(style, level)
  {}

  lemma {:induction false} RawColumnIs(column: nat, text: string)
    ensures RawColumn(column, text) == if OneLine(text) then column + |text| else TailLength(text)
    decreases |text|
  {
    if text != "" {
      var front, c := text[..|text| - 1], text[|text| - 1];
      RawColumnIs(column, front);
      assert text == front + [c];
    }
  }

  // ---- Each write adds its piece

  lemma WordWritten(style: Style, ps: seq<Piece>, text: string, kind: string, parent: string, level: nat)
    ensures WriteToken(style, PenOf(style, ps), text, kind, parent, level)
            == PenOf(style, ps + [Word(text, kind, parent, level)])
  {
    var p := Word(text, kind, parent, level);
    OnePiece(ps, p);
    StartsFresh(style, ps);
    IndentationIs(style, level);
    hide Indentation, IndentText, ByteLength, AtLineStart;
    assert TextOf(style, ps + [p]) == TextOf(style, ps) + Lead(style, ps, p) + text;
    assert TextOf(style, ps) + "" + text == TextOf(style, ps) + text;
  }

  lemma VerbatimWritten(style: Style, ps: seq<Piece>, text: string)
    ensures WriteRaw(PenOf(style, ps), text) == PenOf(style, ps + [Verbatim(text)])
  {
    OnePiece(ps, Verbatim(text));
    RawColumnIs(Width(style, ps), text);
    hide RawColumn, IsSpace;
    assert Lead(style, ps, Verbatim(text)) == "";
    assert TextOf(style, ps) + "" + text == TextOf(style, ps) + text;
  }

  lemma MarginWritten(style: Style, ps: seq<Piece>, indentation: string)
    ensures StartLine(PenOf(style, ps), indentation) == PenOf(style, ps + [Margin(indentation)])
  {
    OnePiece(ps, Margin(indentation));
    StartsFresh(style, ps);
    hide ByteLength, AtLineStart;
    assert TextOf(style, ps) + "" + indentation == TextOf(style, ps) + indentation;
  }

  lemma NewLineWritten(style: Style, ps: seq<Piece>, level: nat)
    ensures Newline(PenOf(style, ps)) == PenOf(style, ps + [NewLine(level)])
  {
    OnePiece(ps, NewLine(level));
    assert Lead(style, ps, NewLine(level)) == "";
    assert TextOf(style, ps) + "" + [NEWLINE] == TextOf(style, ps) + [NEWLINE];
  }

  lemma BlankWritten(style: Style, ps: seq<Piece>)
    ensures Space(PenOf(style, ps)) == PenOf(style, ps + [Blank])
  {
    OnePiece(ps, Blank);
    assert Lead(style, ps, Blank) == "";
    assert TextOf(style, ps) + "" + " " == TextOf(style, ps) + " ";
  }

  // ---- Measuring documents is measuring their pieces

  lemma {:induction false} MeasureAdds(style: Style, m: Meter, a: seq<Piece>, b: seq<Piece>)
    ensures MeasureAll(style, m, a + b)
            == var first := MeasureAll(style, m, a); if first.None? then None else MeasureAll(style, first.value, b)
    decreases |a|
  {
    hide Measure;
    if a == [] {
      assert a + b == b;
    } else {
      assert (a + b)[0] == a[0] && (a + b)[1..] == a[1..] + b;
      var first := Measure(style, m, a[0]);
      if first.Some? {
        MeasureAdds(style, first.value, a[1..], b);
      }
    }
  }

  lemma MeasureOne(style: Style, m: Meter, p: Piece)
    ensures MeasureAll(style, m, [p]) == Measure(style, m, p)
  {
    hide Measure;
    var first := Measure(style, m, p);
    if first.Some? {
      assert MeasureAll(style, first.value, [p][1..]) == first;
    }
  }

  lemma {:induction false} InnerIsPieces(style: Style, doc: Doc, indent: nat, m: Meter)
    ensures FitsInner(style, doc, indent, m) == MeasureAll(style, m, FlatPieces(doc, indent))
    decreases doc
  {
    hide ByteLength, OneLine, Indentation;
    IndentationIs(style, indent);
    match doc
    case Empty =>
    case Softline =>
    case Concat(docs) => InnersArePieces(style, docs, indent, m);
    case Indent(inner) => InnerIsPieces(style, inner, indent + 1, m);
    case Group(inner) => InnerIsPieces(style, inner, indent, m);
    case IfBreak(_, flat) => InnerIsPieces(style, flat, indent, m);
    case Fill(parts) => InnersArePieces(style, parts, indent, m);
    case FillRest(parts) => InnersArePieces(style, parts, indent, m);
    case _ => MeasureOne(style, m, FlatPieces(doc, indent)[0]);
  }

  lemma {:induction false} InnersArePieces(style: Style, docs: seq<Doc>, indent: nat, m: Meter)
    ensures FitsAll(style, docs, indent, m) == MeasureAll(style, m, AllFlatPieces(docs, indent))
    decreases docs
  {
    hide FitsInner, FlatPieces;
    if docs != [] {
      InnerIsPieces(style, docs[0], indent, m);
      MeasureAdds(style, m, FlatPieces(docs[0], indent), AllFlatPieces(docs[1..], indent));
      var first := FitsInner(style, docs[0], indent, m);
      if first.Some? {
        InnersArePieces(style, docs[1..], indent, first.value);
      }
    }
  }

  /** Going on with more, behind what a verdict allows. */
  predicate GoesOn(style: Style, v: Verdict, more: seq<Ahead>) {
    match v
    case Overflow => false
    case LineBreak => true
    case Continue(m) => RestFits(style, m, more)
  }

  lemma RestOne(style: Style, m: Meter, a: Ahead, more: seq<Ahead>)
    ensures RestFits(style, m, [a] + more)
            == (|| EndsLine(a)
                || (Measure(style, m, a.piece).Some? && RestFits(style, Measure(style, m, a.piece).value, more)))
  {
    hide Measure, EndsLine;
    assert ([a] + more)[0] == a && ([a] + more)[1..] == more;
  }

  lemma {:induction false} GroupedFits(style: Style, m: Meter, ps: seq<Piece>, more: seq<Ahead>)
    ensures RestFits(style, m, Grouped(ps) + more) == GoesOn(style, AsVerdict(MeasureAll(style, m, ps)), more)
    decreases |ps|
  {
    hide Measure;
    if ps == [] {
      assert Grouped(ps) + more == more;
    } else {
      assert Grouped(ps) + more == [Ahead(ps[0], true)] + (Grouped(ps[1..]) + more);
      RestOne(style, m, Ahead(ps[0], true), Grouped(ps[1..]) + more);
      var first := Measure(style, m, ps[0]);
      if first.Some? {
        GroupedFits(style, first.value, ps[1..], more);
      }
    }
  }

  lemma {:induction false} ItemIsUpcoming(
    style: Style, doc: Doc, indent: nat, mode: Mode, m: Meter, more: seq<Ahead>)
    ensures RestFits(style, m, Upcoming(doc, indent, mode) + more)
            == GoesOn(style, FitsItem(style, doc, indent, mode, m), more)
    decreases doc
  {
    hide ByteLength, OneLine, RestFits, Indentation, FitsInner, FlatPieces;
    match doc
    case Empty => assert [] + more == more;
    case Concat(docs) => ItemsAreUpcoming(style, docs, indent, mode, m, more);
    case Indent(inner) => ItemIsUpcoming(style, inner, indent + 1, mode, m, more);
    case Group(inner) =>
      InnerIsPieces(style, inner, indent, m);
      GroupedFits(style, m, FlatPieces(inner, indent), more);
    case IfBreak(broken, flat) => ItemIsUpcoming(style, if mode.Flat? then flat else broken, indent, mode, m, more);
    case Fill(parts) => ItemsAreUpcoming(style, parts, indent, Flat, m, more);
    case FillRest(parts) => ItemsAreUpcoming(style, parts, indent, Flat, m, more);
    case Softline =>
      assert [] + more == more;
      RestOne(style, m, Ahead(NewLine(indent), false), more);
    case _ =>
      assert Upcoming(doc, indent, mode) == [Upcoming(doc, indent, mode)[0]];
      RestOne(style, m, Upcoming(doc, indent, mode)[0], more);
  }

  lemma {:induction false} ItemsAreUpcoming(
    style: Style, docs: seq<Doc>, indent: nat, mode: Mode, m: Meter, more: seq<Ahead>)
    ensures RestFits(style, m, AllUpcoming(docs, indent, mode) + more)
            == GoesOn(style, FitsItems(style, docs, indent, mode, m), more)
    decreases docs
  {
    hide FitsItem, Upcoming, RestFits;
    if docs == [] {
      assert [] + more == more;
    } else {
      var first, rest := Upcoming(docs[0], indent, mode), AllUpcoming(docs[1..], indent, mode);
      assert AllUpcoming(docs, indent, mode) + more == first + (rest + more);
      ItemIsUpcoming(style, docs[0], indent, mode, m, rest + more);
      var v := FitsItem(style, docs[0], indent, mode, m);
      if v.Continue? {
        ItemsAreUpcoming(style, docs[1..], indent, mode, v.meter, more);
      }
    }
  }

  lemma {:induction false} RestIsUpcoming(style: Style, stack: seq<Entry>, m: Meter)
    ensures RestFits(style, m, StackUpcoming(stack)) == !FitsRest(style, stack, m).Overflow?
    decreases |stack|
  {
    hide FitsItem, Upcoming;
    if stack != [] {
      var e, below := stack[|stack| - 1], stack[..|stack| - 1];
      ItemIsUpcoming(style, e.doc, e.indent, e.mode, m, StackUpcoming(below));
      var v := FitsItem(style, e.doc, e.indent, e.mode, m);
      if v.Continue? {
        RestIsUpcoming(style, below, v.meter);
      }
    }
  }

  lemma RoomIs(style: Style, ps: seq<Piece>, indent: nat)
    ensures MeterAt(style, PenOf(style, ps), indent) == Room(style, ps, indent)
  {
    hide TextOf, Width, LastWord, AtLineStart;
    StartsFresh(style, ps);
    IndentationIs(style, indent);
  }

  lemma GroupDecided(style: Style, ps: seq<Piece>, inner: Doc, indent: nat, after: seq<Entry>)
    ensures FitsGroup(style, PenOf(style, ps), inner, indent, after) == GroupFits(style, ps, inner, indent, after)
  {
    hide PenOf, Room, MeterAt, FitsInner, FlatPieces, FitsRest, StackUpcoming, RestFits, MeasureAll;
    RoomIs(style, ps, indent);
    InnerIsPieces(style, inner, indent, Room(style, ps, indent));
    var fits := FitsInner(style, inner, indent, Room(style, ps, indent));
    if fits.Some? {
      RestIsUpcoming(style, after, fits.value);
    }
  }

  lemma PairDecided(style: Style, ps: seq<Piece>, sep: Doc, content: Doc, indent: nat)
    ensures FitsPair(style, PenOf(style, ps), indent, sep, content) == PairFits(style, ps, sep, content, indent)
  {
    hide PenOf, Room, MeterAt, FitsInner, FlatPieces, MeasureAll;
    var m := Room(style, ps, indent);
    RoomIs(style, ps, indent);
    InnerIsPieces(style, sep, indent, m);
    MeasureAdds(style, m, FlatPieces(sep, indent), FlatPieces(content, indent));
    var fits := FitsInner(style, sep, indent, m);
    if fits.Some? {
      InnerIsPieces(style, content, indent, fits.value);
    }
  }

  // ---- Draining the stack lays out its documents

  /** The entry on top becomes its layout. */
  ghost predicate LaysTop(style: Style, before: seq<Piece>, doc: Doc, indent: nat, mode: Mode, after: seq<Entry>) {
    Drained(style, PenOf(style, before), after + [Entry(indent, mode, doc)])
    == Drained(style, PenOf(style, before + Lay(style, before, doc, indent, mode, after)), after)
  }

  lemma Leaves(style: Style, before: seq<Piece>, doc: Doc, indent: nat, mode: Mode, after: seq<Entry>)
    requires !doc.Concat? && !doc.Indent? && !doc.Group? && !doc.IfBreak? && !doc.Fill? && !doc.FillRest?
    ensures LaysTop(style, before, doc, indent, mode, after)
  {
    hide PenOf, Drained, WriteToken, WriteRaw, StartLine, Newline, Space, TextOf, Width;
    DrainStep(style, PenOf(style, before), after, Entry(indent, mode, doc));
    NoMore(after);
    assert before + [] == before;
    match doc
    case Token(text, kind, parent) => WordWritten(style, before, text, kind, parent, indent);
    case Raw(text) => VerbatimWritten(style, before, text);
    case LineStart(indentation) => MarginWritten(style, before, indentation);
    case BlankLine => TwoBreaks(style, before, indent);
    case _ =>
      NewLineWritten(style, before, indent);
      BlankWritten(style, before);
  }

  lemma TwoBreaks(style: Style, before: seq<Piece>, indent: nat)
    ensures var pen := PenOf(style, before);
            Newline(pen).(output := pen.output + [NEWLINE] + [NEWLINE])
            == PenOf(style, before + [NewLine(indent), NewLine(indent)])
  {
    NewLineWritten(style, before, indent);
    NewLineWritten(style, before + [NewLine(indent)], indent);
    assert before + [NewLine(indent)] + [NewLine(indent)] == before + [NewLine(indent), NewLine(indent)];
  }

  lemma {:induction false} LaysDoc(
    style: Style, before: seq<Piece>, doc: Doc, indent: nat, mode: Mode, after: seq<Entry>)
    ensures LaysTop(style, before, doc, indent, mode, after)
    decreases doc
  {
    hide PenOf, Drained, GroupFits, FitsGroup, FillEntries, Stacked, LayAll, LayFill;
    var pen, e := PenOf(style, before), Entry(indent, mode, doc);
    DrainStep(style, pen, after, e);
    match doc
    case Concat(docs) => LaysDocs(style, before, docs, indent, mode, after);
    case Indent(inner) => LaysDoc(style, before, inner, indent + 1, mode, after);
    case Group(inner) =>
      GroupDecided(style, before, inner, indent, after);
      LaysDoc(style, before, inner, indent,
              if GroupFits(style, before, inner, indent, after) then Flat else Mode.Break, after);
    case IfBreak(broken, flat) => LaysDoc(style, before, if mode.Flat? then flat else broken, indent, mode, after);
    case Fill(parts) =>
      DrainStep(style, pen, after, Entry(indent, mode, FillRest(parts)));
      LaysFill(style, before, parts, indent, mode, after);
    case FillRest(parts) => LaysFill(style, before, parts, indent, mode, after);
    case _ => Leaves(style, before, doc, indent, mode, after);
  }

  lemma {:induction false} LaysDocs(
    style: Style, before: seq<Piece>, docs: seq<Doc>, indent: nat, mode: Mode, after: seq<Entry>)
    ensures Drained(style, PenOf(style, before), after + Stacked(docs, indent, mode))
            == Drained(style, PenOf(style, before + LayAll(style, before, docs, indent, mode, after)), after)
    decreases docs, 0
  {
    hide PenOf, Drained, Lay;
    if docs == [] {
      NoMore(after);
      assert before + [] == before;
    } else {
      var rest := after + Stacked(docs[1..], indent, mode);
      var first := Lay(style, before, docs[0], indent, mode, rest);
      LaysDoc(style, before, docs[0], indent, mode, rest);
      assert after + Stacked(docs, indent, mode) == rest + [Entry(indent, mode, docs[0])];
      LaysDocs(style, before + first, docs[1..], indent, mode, after);
      var more := LayAll(style, before + first, docs[1..], indent, mode, after);
      assert before + (first + more) == before + first + more;
    }
  }

  lemma {:induction false} LaysFill(
    style: Style, before: seq<Piece>, parts: seq<Doc>, indent: nat, mode: Mode, after: seq<Entry>)
    ensures Drained(style, PenOf(style, before), after + FillEntries(style, PenOf(style, before), indent, mode, parts))
            == Drained(style, PenOf(style, before + LayFill(style, before, parts, indent, mode, after)), after)
    decreases parts, 1
  {
    hide PenOf, Drained, Lay, FitsPair, PairFits;
    if |parts| < 2 {
      LaysDocs(style, before, parts, indent, Flat, after);
    } else {
      var later := after + if |parts| > 2 then [Entry(indent, mode, FillRest(parts[2..]))] else [];
      PairDecided(style, before, parts[0], parts[1], indent);
      var sepMode := SeparatorMode(style, PenOf(style, before), indent, mode, parts[0], parts[1]);
      var middle := later + [Entry(indent, Flat, parts[1])];
      LaysDoc(style, before, parts[0], indent, sepMode, middle);
      assert after + FillEntries(style, PenOf(style, before), indent, mode, parts)
             == middle + [Entry(indent, sepMode, parts[0])];
      var sep := Lay(style, before, parts[0], indent, sepMode, middle);
      LaysDoc(style, before + sep, parts[1], indent, Flat, later);
      var content := Lay(style, before + sep, parts[1], indent, Flat, later);
      LaysRest(style, before + sep + content, parts[2..], indent, mode, after);
      var more := LayFill(style, before + sep + content, parts[2..], indent, mode, after);
      assert before + (sep + content + more) == before + sep + content + more;
    }
  }

  lemma {:induction false} LaysRest(
    style: Style, before: seq<Piece>, parts: seq<Doc>, indent: nat, mode: Mode, after: seq<Entry>)
    ensures Drained(style, PenOf(style, before),
                    after + if parts != [] then [Entry(indent, mode, FillRest(parts))] else [])
            == Drained(style, PenOf(style, before + LayFill(style, before, parts, indent, mode, after)), after)
    decreases parts, 2
  {
    hide PenOf, Drained, Lay, FillEntries;
    if parts == [] {
      NoMore(after);
      assert before + [] == before;
    } else {
      DrainStep(style, PenOf(style, before), after, Entry(indent, mode, FillRest(parts)));
      LaysFill(style, before, parts, indent, mode, after);
    }
  }

  /** Rendering a document writes the text of its layout. */
  lemma RenderedIsLaidOut(style: Style, doc: Doc)
    ensures Rendered(style, doc) == TextOf(style, Layout(style, doc))
  {
    hide Drained, Lay;
    assert PenOf(style, []) == Pen("", 0, "", "");
    hide TextOf;
    LaysDoc(style, [], doc, 0, Mode.Break, []);
    assert [] + [Entry(0, Mode.Break, doc)] == [Entry(0, Mode.Break, doc)];
    assert [] + Layout(style, doc) == Layout(style, doc);
    DrainNothing(style, PenOf(style, Layout(style, doc)));
  }
}
