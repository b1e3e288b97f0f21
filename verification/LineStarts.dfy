/** How a line starts, when its measure can be trusted, and what every step keeps of that. */
module LineStarts {
  import opened PascalSyntax
  import opened LayoutDocs
  import opened LayoutLaws

  // ---- The first thing on a line

  /**
    What a document does at the start of a line that was measured with some room: something
    that the measure does not cover, something it covers, or nothing. `kind` and `parent` are
    those of the last token, which line breaks do not forget.
    */
  datatype Start = Risky | Settled | Open(kind: string, parent: string)

  /** A token brings its own indentation, not that of the group that was measured. */
  predicate SafeToken(style: Style, room: nat, level: nat) {
    IndentWidth(style, level) + room <= style.maxLength
  }

  /** A further group or fill is decided with the room at its own level. */
  predicate SafeChoice(style: Style, room: nat, level: nat) {
    room <= Left(style, IndentWidth(style, level))
  }

  predicate EndsBlank(text: string) {
    text != "" && IsSpace(text[|text| - 1])
  }

  /**
    Raw text brings no indentation, but the next token may need a space behind the last token
    of an earlier line; the indentation that was measured in vain can pay for it.
    */
  ghost predicate SafeRaw(style: Style, room: nat, text: string, kind: string, parent: string) {
    || Silent(style, kind, parent)
    || EndsBlank(text)
    || room + |text| < style.maxLength + ByteLength(text)
    || ByteLength(text) > room
  }

  function Judge(safe: bool): Start {
    if safe then Settled else Risky
  }

  ghost function DocStart(
    style: Style, room: nat, doc: Doc, indent: nat, mode: Mode, kind: string, parent: string): Start
    decreases doc
  {
    match doc
    case Empty => Open(kind, parent)
    case Token(text, k, p) =>
      if text == "" && IndentWidth(style, indent) == 0 then Open(k, p) else Judge(SafeToken(style, room, indent))
    case Raw(text) => if text == "" then Open(kind, parent) else Judge(SafeRaw(style, room, text, kind, parent))
    case LineStart(_) => Risky
    case Hardline => Settled
    case BlankLine => Settled
    case Line => Settled
    case PreservedLine => Settled
    case Softline => if mode.Flat? then Open(kind, parent) else Settled
    case Concat(docs) => DocsStart(style, room, docs, indent, mode, kind, parent)
    case Indent(inner) => DocStart(style, room, inner, indent + 1, mode, kind, parent)
    case Group(inner) => if SafeChoice(style, room, indent)
        then DocStart(style, room, inner, indent, Flat, kind, parent) else Risky
    case IfBreak(broken, flat) => DocStart(style, room, if mode.Flat? then flat else broken, indent, mode, kind, parent)
    case Fill(parts) => FillStart(style, room, parts, indent, mode, kind, parent)
    case FillRest(parts) => FillStart(style, room, parts, indent, mode, kind, parent)
  }

  ghost function DocsStart(
    style: Style, room: nat, docs: seq<Doc>, indent: nat, mode: Mode, kind: string, parent: string): Start
    decreases docs, 0
  {
    if docs == [] then Open(kind, parent)
    else
      var first := DocStart(style, room, docs[0], indent, mode, kind, parent);
      if !first.Open? then first else DocsStart(style, room, docs[1..], indent, mode, first.kind, first.parent)
  }

  predicate ForcedBreak(sep: Doc, mode: Mode) {
    sep.Hardline? || (mode.Break? && sep.PreservedLine?)
  }

  ghost function FillStart(
    style: Style, room: nat, parts: seq<Doc>, indent: nat, mode: Mode, kind: string, parent: string): Start
    decreases parts, 1
  {
    if |parts| < 2 then DocsStart(style, room, parts, indent, Flat, kind, parent)
    else if ForcedBreak(parts[0], mode) then Settled
    else if !SafeChoice(style, room, indent) then Risky
    else
      var sep := DocStart(style, room, parts[0], indent, Flat, kind, parent);
      if !sep.Open? then sep
      else
        var content := DocStart(style, room, parts[1], indent, Flat, sep.kind, sep.parent);
        if !content.Open? then content
            else FillStart(style, room, parts[2..], indent, mode, content.kind, content.parent)
  }

  /** The whole rest of the line; the top of the stack comes first. */
  ghost function StackStart(style: Style, room: nat, stack: seq<Entry>, kind: string, parent: string): Start
    decreases |stack|
  {
    if stack == [] then Open(kind, parent)
    else
      var e := stack[|stack| - 1];
      var first := DocStart(style, room, e.doc, e.indent, e.mode, kind, parent);
      if !first.Open? then first else StackStart(style, room, stack[..|stack| - 1], first.kind, first.parent)
  }

  // ---- Unfolding keeps the start

  lemma {:induction false} StartAdds(
    style: Style, room: nat, below: seq<Entry>, more: seq<Entry>, kind: string, parent: string)
    ensures StackStart(style, room, below + more, kind, parent)
            == var first := StackStart(style, room, more, kind, parent);
               if !first.Open? then first else StackStart(style, room, below, first.kind, first.parent)
    decreases |more|
  {
    hide DocStart;
    var all := below + more;
    if more == [] {
      assert all == below;
    } else {
      var n := |more| - 1;
      assert all[|all| - 1] == more[n] && all[..|all| - 1] == below + more[..n];
      var first := DocStart(style, room, more[n].doc, more[n].indent, more[n].mode, kind, parent);
      if first.Open? {
        StartAdds(style, room, below, more[..n], first.kind, first.parent);
      }
    }
  }

  lemma StartOne(style: Style, room: nat, e: Entry, kind: string, parent: string)
    ensures StackStart(style, room, [e], kind, parent) == DocStart(style, room, e.doc, e.indent, e.mode, kind, parent)
  {
    hide DocStart;
    var first := DocStart(style, room, e.doc, e.indent, e.mode, kind, parent);
    assert [e][..0] == [];
    if first.Open? {
      assert StackStart(style, room, [e][..0], first.kind, first.parent) == first;
    }
  }

  lemma {:induction false} StartStacked(
    style: Style, room: nat, docs: seq<Doc>, indent: nat, mode: Mode, kind: string, parent: string)
    ensures StackStart(style, room, Stacked(docs, indent, mode), kind, parent)
            == DocsStart(style, room, docs, indent, mode, kind, parent)
    decreases |docs|
  {
    hide DocStart;
    if docs != [] {
      var top := Entry(indent, mode, docs[0]);
      StartAdds(style, room, Stacked(docs[1..], indent, mode), [top], kind, parent);
      StartOne(style, room, top, kind, parent);
      var first := DocStart(style, room, docs[0], indent, mode, kind, parent);
      if first.Open? {
        StartStacked(style, room, docs[1..], indent, mode, first.kind, first.parent);
      }
    }
  }

  lemma StartPair(style: Style, room: nat, rest: seq<Entry>, content: Entry, sep: Entry, kind: string, parent: string)
    ensures StackStart(style, room, rest + [content, sep], kind, parent)
            == var a := DocStart(style, room, sep.doc, sep.indent, sep.mode, kind, parent);
               if !a.Open? then a
               else
                 var b := DocStart(style, room, content.doc, content.indent, content.mode, a.kind, a.parent);
                 if !b.Open? then b else StackStart(style, room, rest, b.kind, b.parent)
  {
    hide DocStart;
    var stack := rest + [content, sep];
    assert stack[|stack| - 1] == sep && stack[..|stack| - 1] == rest + [content];
    assert (rest + [content])[|rest|] == content && (rest + [content])[..|rest|] == rest;
  }

  lemma StartFillRest(style: Style, room: nat, parts: seq<Doc>, indent: nat, mode: Mode, kind: string, parent: string)
    requires |parts| >= 2
    ensures var rest := if |parts| > 2 then [Entry(indent, mode, FillRest(parts[2..]))] else [];
            StackStart(style, room, rest, kind, parent)
            == FillStart(style, room, parts[2..], indent, mode, kind, parent)
  {
    if |parts| > 2 {
      StartOne(style, room, Entry(indent, mode, FillRest(parts[2..])), kind, parent);
    } else {
      assert parts[2..] == [];
    }
  }

  /** What a fill leaves on the stack starts the line as the fill does, or its separator ends the line. */
  lemma StartFill(
    style: Style, room: nat, pen: Pen, indent: nat, mode: Mode, parts: seq<Doc>, kind: string, parent: string)
    requires Separated(parts)
    ensures var s := StackStart(style, room, FillEntries(style, pen, indent, mode, parts), kind, parent);
            s.Settled? || s == FillStart(style, room, parts, indent, mode, kind, parent)
            || FillStart(style, room, parts, indent, mode, kind, parent).Risky?
  {
    hide DocStart, SeparatorMode, StackStart;
    if |parts| < 2 {
      StartStacked(style, room, parts, indent, Flat, kind, parent);
    } else {
      var sepMode := SeparatorMode(style, pen, indent, mode, parts[0], parts[1]);
      var rest := if |parts| > 2 then [Entry(indent, mode, FillRest(parts[2..]))] else [];
      StartPair(style, room, rest, Entry(indent, Flat, parts[1]), Entry(indent, sepMode, parts[0]), kind, parent);
      if sepMode.Break? {
        BreakSettles(style, room, parts[0], indent, kind, parent);
      } else {
        ForcedIsBreak(style, pen, indent, mode, parts[0], parts[1]);
        var a := DocStart(style, room, parts[0], indent, Flat, kind, parent);
        if a.Open? {
          var b := DocStart(style, room, parts[1], indent, Flat, a.kind, a.parent);
          if b.Open? {
            StartFillRest(style, room, parts, indent, mode, b.kind, b.parent);
          }
        }
      }
    }
  }

  lemma BreakSettles(style: Style, room: nat, sep: Doc, indent: nat, kind: string, parent: string)
    requires IsSeparator(sep)
    ensures DocStart(style, room, sep, indent, Mode.Break, kind, parent).Settled?
  {}

  lemma ForcedIsBreak(style: Style, pen: Pen, indent: nat, mode: Mode, sep: Doc, content: Doc)
    ensures ForcedBreak(sep, mode) ==> SeparatorMode(style, pen, indent, mode, sep, content).Break?
  {}

  /** Unfolding an entry makes no start risky. */
  lemma UnfoldsAsStarted(style: Style, room: nat, pen: Pen, e: Entry, below: seq<Entry>)
    requires Tidy(e.doc) && !Writes(e.doc) && !EndsLine(e)
    requires e.doc.Group? ==> FitsGroup(style, pen, e.doc.inner, e.indent, below)
    requires !StackStart(style, room, below + [e], pen.kind, pen.parent).Risky?
    ensures !StackStart(style, room, below + EntriesAfter(style, pen, e, below), pen.kind, pen.parent).Risky?
  {
    hide Tidy, StackStart, DocsStart, FillStart, FillEntries, Stacked, FitsGroup, SafeChoice;
    var more := EntriesAfter(style, pen, e, below);
    StartAdds(style, room, below, [e], pen.kind, pen.parent);
    StartOne(style, room, e, pen.kind, pen.parent);
    StartAdds(style, room, below, more, pen.kind, pen.parent);
    match e.doc
    case Concat(docs) => StartStacked(style, room, docs, e.indent, e.mode, pen.kind, pen.parent);
    case Indent(_) => StartOne(style, room, more[0], pen.kind, pen.parent);
    case Group(_) => StartOne(style, room, more[0], pen.kind, pen.parent);
    case IfBreak(_, _) => StartOne(style, room, more[0], pen.kind, pen.parent);
    case Fill(_) => StartOne(style, room, more[0], pen.kind, pen.parent);
    case FillRest(parts) =>
      FillTidy(parts);
      StartFill(style, room, pen, e.indent, e.mode, parts, pen.kind, pen.parent);
  }

  // ---- A line that will fit

  /**
    The line does not overflow as it is measured from `m`, and the measure can be trusted:
    mid-line because the pen has no less room, at the start of the line because nothing that
    starts it is risky.
    */
  ghost predicate LineOk(style: Style, pen: Pen, stack: seq<Entry>, m: Meter, room: nat) {
    && TidyStack(stack) && !FitsRest(style, stack, m).Overflow?
    && if MidLine(pen) then pen.column <= style.maxLength && Better(style, m, MeterAt(style, pen, 0))
       else
         && pen.column == 0 && m.remaining <= room <= style.maxLength
         && !StackStart(style, room, stack, pen.kind, pen.parent).Risky?
  }

  /** Where a group or fill is decided there is no less room than was measured. */
  lemma ChoiceRoom(style: Style, pen: Pen, below: seq<Entry>, e: Entry, m: Meter, room: nat)
    requires Quiet(style) && LineOk(style, pen, below + [e], m, room)
    requires e.doc.Group? || (e.doc.FillRest? && |e.doc.parts| >= 2 && !ForcedBreak(e.doc.parts[0], e.mode))
    ensures Better(style, m, MeterAt(style, pen, e.indent))
  {
    hide FitsRest, Tidy, StackStart;
    if !MidLine(pen) {
      StartAdds(style, room, below, [e], pen.kind, pen.parent);
      StartOne(style, room, e, pen.kind, pen.parent);
    }
  }

  lemma UnfoldStep(style: Style, pen: Pen, below: seq<Entry>, e: Entry, m: Meter, room: nat)
    requires Quiet(style) && LineOk(style, pen, below + [e], m, room) && !Writes(e.doc) && !EndsLine(e)
    ensures LineOk(style, pen, below + EntriesAfter(style, pen, e, below), m, room)
    ensures e.doc.Group? ==> FitsGroup(style, pen, e.doc.inner, e.indent, below)
  {
    hide Quiet, FitsRest, FitsGroup, Tidy, StackStart, EntriesAfter, Better;
    TidyParts(below, e);
    if e.doc.Group? {
      ChoiceRoom(style, pen, below, e, m, room);
      GroupChosen(style, pen, below, e, m);
    }
    UnfoldsAsMeasured(style, pen, e, below, m);
    if !MidLine(pen) {
      UnfoldsAsStarted(style, room, pen, e, below);
    }
  }

  lemma MidStep(style: Style, pen: Pen, below: seq<Entry>, e: Entry, m: Meter, room: nat) returns (m': Meter)
    requires Quiet(style) && LineOk(style, pen, below + [e], m, room) && MidLine(pen) && Writes(e.doc) && !EndsLine(e)
    ensures GoesOn(pen, PenAfter(style, pen, e)) && LineOk(style, PenAfter(style, pen, e), below, m', room)
  {
    hide Quiet, FitsItem, FitsRest, PenAfter, Tidy, EndsLine, GoesOn, Better;
    var there := MeterAt(style, pen, 0);
    RestAdds(style, below, [e], m);
    RestOne(style, e, m);
    TidyParts(below, e);
    BetterItem(style, e.doc, e.indent, e.mode, m, there);
    WriteVerdict(style, e, m);
    WritesAsMeasured(style, pen, e);
    m' := FitsItem(style, e.doc, e.indent, e.mode, m).meter;
    BetterTrans(style, m', FitsItem(style, e.doc, e.indent, e.mode, there).meter,
                MeterAt(style, PenAfter(style, pen, e), 0));
  }

  lemma WriteVerdict(style: Style, e: Entry, m: Meter)
    requires Writes(e.doc) && !EndsLine(e) && Tidy(e.doc)
    ensures !FitsItem(style, e.doc, e.indent, e.mode, m).LineBreak?
  {}

  /** Text at the start of a line: still at its start, or within the measure. */
  ghost predicate Lands(style: Style, pen: Pen, pen': Pen, m: Meter) {
    if MidLine(pen') then pen'.column <= style.maxLength
        && Better(style, m, MeterAt(style, pen', 0)) else pen'.column == 0
  }

  lemma StartAppended(pen: Pen, pen': Pen, text: string)
    requires pen'.output == pen.output + text && OneLine(text) && |text| <= pen'.column && pen.column == 0
    ensures GoesOn(pen, pen') && (text != "" && pen'.column > 0 ==> MidLine(pen'))
    ensures (pen'.column == 0 ==> !MidLine(pen'))
  {
    assert pen'.output[|pen.output|..] == text && pen'.output[..|pen.output|] == pen.output;
    if text != "" {
      assert pen'.output[|pen'.output| - 1] == text[|text| - 1] && text[|text| - 1] in text;
    }
  }

  lemma TokenStarts(style: Style, pen: Pen, e: Entry, m: Meter, room: nat)
    requires Quiet(style) && e.doc.Token? && OneLine(e.doc.text) && !MidLine(pen) && pen.column == 0
    requires m.remaining <= room <= style.maxLength
    requires !DocStart(style, room, e.doc, e.indent, e.mode, pen.kind, pen.parent).Risky?
    requires FitsItem(style, e.doc, e.indent, e.mode, m).Continue?
    ensures var pen' := PenAfter(style, pen, e);
            GoesOn(pen, pen') && Lands(style, pen, pen', FitsItem(style, e.doc, e.indent, e.mode, m).meter)
    ensures !MidLine(PenAfter(style, pen, e)) ==>
              DocStart(style, room, e.doc, e.indent, e.mode, pen.kind, pen.parent)
              == Open(PenAfter(style, pen, e).kind, PenAfter(style, pen, e).parent)
  {
    hide ByteLength, IndentText, Quiet;
    var pen' := PenAfter(style, pen, e);
    var text := e.doc.text;
    BytesEnough(text);
    IndentsOneLine(style, e.indent);
    assert pen'.output == pen.output + (IndentText(style, e.indent) + text);
    StartAppended(pen, pen', IndentText(style, e.indent) + text);
    if text == "" && IndentWidth(style, e.indent) == 0 {
      NoBytes();
    }
  }

  lemma NoBytes()
    ensures ByteLength("") == 0
  {}

  lemma IndentsOneLine(style: Style, level: nat)
    ensures OneLine(IndentText(style, level)) && |IndentText(style, level)| == IndentWidth(style, level)
  {}

  lemma RawStarts(style: Style, pen: Pen, e: Entry, m: Meter, room: nat)
    requires Quiet(style) && e.doc.Raw? && OneLine(e.doc.text) && !MidLine(pen) && pen.column == 0
    requires m.remaining <= room <= style.maxLength
    requires !DocStart(style, room, e.doc, e.indent, e.mode, pen.kind, pen.parent).Risky?
    requires FitsItem(style, e.doc, e.indent, e.mode, m).Continue?
    ensures var pen' := PenAfter(style, pen, e);
            GoesOn(pen, pen') && Lands(style, pen, pen', FitsItem(style, e.doc, e.indent, e.mode, m).meter)
    ensures !MidLine(PenAfter(style, pen, e)) ==>
              DocStart(style, room, e.doc, e.indent, e.mode, pen.kind, pen.parent)
              == Open(PenAfter(style, pen, e).kind, PenAfter(style, pen, e).parent)
  {
    hide ByteLength, RawColumn, IsSpace;
    var pen' := PenAfter(style, pen, e);
    BytesEnough(e.doc.text);
    RawOnLine(pen.column, e.doc.text);
    StartAppended(pen, pen', e.doc.text);
  }

  lemma SpaceStarts(style: Style, pen: Pen, e: Entry, m: Meter, room: nat)
    requires Quiet(style) && (e.doc.Line? || e.doc.PreservedLine? || e.doc.Softline? || e.doc.Empty?) && !EndsLine(e)
    requires !MidLine(pen) && pen.column == 0 && m.remaining <= room <= style.maxLength
    requires FitsItem(style, e.doc, e.indent, e.mode, m).Continue?
    ensures var pen' := PenAfter(style, pen, e);
            GoesOn(pen, pen') && Lands(style, pen, pen', FitsItem(style, e.doc, e.indent, e.mode, m).meter)
    ensures !MidLine(PenAfter(style, pen, e)) ==>
              DocStart(style, room, e.doc, e.indent, e.mode, pen.kind, pen.parent)
              == Open(PenAfter(style, pen, e).kind, PenAfter(style, pen, e).parent)
  {
    var pen' := PenAfter(style, pen, e);
    if e.doc.Line? || e.doc.PreservedLine? {
      StartAppended(pen, pen', " ");
    } else {
      StartAppended(pen, pen', "");
    }
  }

  /** The first thing written on a line, or nothing, leaves a line that fits. */
  lemma StartStep(style: Style, pen: Pen, below: seq<Entry>, e: Entry, m: Meter, room: nat) returns (m': Meter)
    requires Quiet(style) && LineOk(style, pen, below + [e], m, room) && !MidLine(pen) && Writes(e.doc) && !EndsLine(e)
    ensures GoesOn(pen, PenAfter(style, pen, e)) && LineOk(style, PenAfter(style, pen, e), below, m', room)
  {
    RestAdds(style, below, [e], m);
    RestOne(style, e, m);
    TidyParts(below, e);
    StartAdds(style, room, below, [e], pen.kind, pen.parent);
    StartOne(style, room, e, pen.kind, pen.parent);
    WriteVerdict(style, e, m);
    MeterShrinks(style, e, m);
    OneLineText(e.doc);
    hide Quiet, FitsItem, FitsRest, PenAfter, Tidy, EndsLine, GoesOn, Better, StackStart, DocStart;
    m' := FitsItem(style, e.doc, e.indent, e.mode, m).meter;
    if e.doc.Token? {
      TokenStarts(style, pen, e, m, room);
    } else if e.doc.Raw? {
      RawStarts(style, pen, e, m, room);
    } else {
      SpaceStarts(style, pen, e, m, room);
    }
  }

  lemma MeterShrinks(style: Style, e: Entry, m: Meter)
    requires Writes(e.doc) && FitsItem(style, e.doc, e.indent, e.mode, m).Continue?
    ensures FitsItem(style, e.doc, e.indent, e.mode, m).meter.remaining <= m.remaining
  {}

  lemma OneLineText(doc: Doc)
    requires Tidy(doc)
    ensures doc.Token? || doc.Raw? ==> OneLine(doc.text)
  {}

  lemma WriteStep(style: Style, pen: Pen, below: seq<Entry>, e: Entry, m: Meter, room: nat) returns (m': Meter)
    requires Quiet(style) && LineOk(style, pen, below + [e], m, room) && Writes(e.doc) && !EndsLine(e)
    ensures GoesOn(pen, PenAfter(style, pen, e)) && LineOk(style, PenAfter(style, pen, e), below, m', room)
    ensures EntriesAfter(style, pen, e, below) == []
  {
    hide Quiet, LineOk, PenAfter, EndsLine, GoesOn, MidLine;
    if MidLine(pen) {
      m' := MidStep(style, pen, below, e, m, room);
    } else {
      m' := StartStep(style, pen, below, e, m, room);
    }
  }
}
