/** How documents are measured, and that what is written is no wider. */
module LayoutLaws {
  import opened PascalSyntax
  import opened LayoutDocs

  // ---- Documents that the laws are about

  /** No forced line break anywhere inside. */
  predicate Joined(doc: Doc) {
    match doc
    case Hardline => false
    case BlankLine => false
    case LineStart(_) => false
    case Concat(docs) => forall i :: 0 <= i < |docs| ==> Joined(docs[i])
    case Indent(inner) => Joined(inner)
    case Group(inner) => Joined(inner)
    case IfBreak(broken, flat) => Joined(broken) && Joined(flat)
    case Fill(parts) => forall i :: 0 <= i < |parts| ==> Joined(parts[i])
    case FillRest(parts) => forall i :: 0 <= i < |parts| ==> Joined(parts[i])
    case _ => true
  }

  predicate IsSeparator(doc: Doc) {
    doc.Line? || doc.Softline? || doc.PreservedLine? || doc.Hardline?
  }

  /** Separators and contents take turns. */
  predicate Separated(parts: seq<Doc>)
    decreases |parts|
  {
    |parts| < 2 || (IsSeparator(parts[0]) && Separated(parts[2..]))
  }

  /** Texts of one line each, and no forced line break inside a group. */
  predicate Tidy(doc: Doc) {
    match doc
    case Token(text, _, _) => OneLine(text)
    case Raw(text) => OneLine(text)
    case LineStart(indentation) => OneLine(indentation)
    case Concat(docs) => forall i :: 0 <= i < |docs| ==> Tidy(docs[i])
    case Indent(inner) => Tidy(inner)
    case Group(inner) => Tidy(inner) && Joined(inner)
    case IfBreak(broken, flat) => Tidy(broken) && Tidy(flat)
    case Fill(parts) => Separated(parts) && forall i :: 0 <= i < |parts| ==> Tidy(parts[i])
    case FillRest(parts) => Separated(parts) && forall i :: 0 <= i < |parts| ==> Tidy(parts[i])
    case _ => true
  }

  predicate AllTidy(docs: seq<Doc>) {
    forall i :: 0 <= i < |docs| ==> Tidy(docs[i])
  }

  predicate AllJoined(docs: seq<Doc>) {
    forall i :: 0 <= i < |docs| ==> Joined(docs[i])
  }

  predicate TidyStack(stack: seq<Entry>) {
    forall i :: 0 <= i < |stack| ==> Tidy(stack[i].doc)
  }

  /** Nothing needs a space when no token is before it. */
  ghost predicate Quiet(style: Style) {
    forall p, k, q :: !style.needsSpace("", p, k, q)
  }

  // ---- Measuring ahead

  /** No token needs a space behind this one. */
  ghost predicate Silent(style: Style, kind: string, parent: string) {
    forall k, q :: !style.needsSpace(kind, parent, k, q)
  }

  /** More room; or as much, and the same last token or one that needs no space. */
  ghost predicate Better(style: Style, m: Meter, m': Meter) {
    || m.remaining < m'.remaining
    || (m.remaining == m'.remaining
        && (Silent(style, m'.kind, m'.parent) || (m'.kind == m.kind && m'.parent == m.parent)))
  }

  ghost predicate BetterFit(style: Style, f: Option<Meter>, f': Option<Meter>) {
    f.Some? ==> f'.Some? && Better(style, f.value, f'.value)
  }

  /** The verdict is no worse. */
  ghost predicate BetterVerdict(style: Style, v: Verdict, v': Verdict) {
    match v
    case Overflow => true
    case LineBreak => v'.LineBreak?
    case Continue(m) => v'.Continue? && Better(style, m, v'.meter)
  }

  lemma BetterTrans(style: Style, a: Meter, b: Meter, c: Meter)
    requires Better(style, a, b) && Better(style, b, c)
    ensures Better(style, a, c)
  {
    hide Silent;
  }

  lemma BetterToken(style: Style, m: Meter, m': Meter, text: string, kind: string, parent: string)
    requires Better(style, m, m')
    ensures BetterFit(style, FitsToken(style, m, text, kind, parent), FitsToken(style, m', text, kind, parent))
  {}

  lemma {:induction false} BetterInner(style: Style, doc: Doc, indent: nat, m: Meter, m': Meter)
    requires Better(style, m, m')
    ensures BetterFit(style, FitsInner(style, doc, indent, m), FitsInner(style, doc, indent, m'))
    decreases doc
  {
    hide Silent, FitsToken;
    match doc
    case Token(text, kind, parent) => BetterToken(style, m, m', text, kind, parent);
    case Concat(docs) => BetterAll(style, docs, indent, m, m');
    case Indent(inner) => BetterInner(style, inner, indent + 1, m, m');
    case Group(inner) => BetterInner(style, inner, indent, m, m');
    case IfBreak(_, flat) => BetterInner(style, flat, indent, m, m');
    case Fill(parts) => BetterAll(style, parts, indent, m, m');
    case FillRest(parts) => BetterAll(style, parts, indent, m, m');
    case _ =>
  }

  lemma {:induction false} BetterAll(style: Style, docs: seq<Doc>, indent: nat, m: Meter, m': Meter)
    requires Better(style, m, m')
    ensures BetterFit(style, FitsAll(style, docs, indent, m), FitsAll(style, docs, indent, m'))
    decreases docs
  {
    hide Silent, FitsInner;
    if docs != [] {
      BetterInner(style, docs[0], indent, m, m');
      var first, first' := FitsInner(style, docs[0], indent, m), FitsInner(style, docs[0], indent, m');
      if first.Some? {
        BetterAll(style, docs[1..], indent, first.value, first'.value);
      }
    }
  }

  lemma {:induction false} BetterItem(style: Style, doc: Doc, indent: nat, mode: Mode, m: Meter, m': Meter)
    requires Better(style, m, m')
    ensures BetterVerdict(style, FitsItem(style, doc, indent, mode, m), FitsItem(style, doc, indent, mode, m'))
    decreases doc
  {
    hide Silent, FitsToken, FitsInner;
    match doc
    case Token(text, kind, parent) => BetterToken(style, m, m', text, kind, parent);
    case Concat(docs) => BetterItems(style, docs, indent, mode, m, m');
    case Indent(inner) => BetterItem(style, inner, indent + 1, mode, m, m');
    case Group(inner) => BetterInner(style, inner, indent, m, m');
    case IfBreak(broken, flat) =>
      BetterItem(style, if mode.Flat? then flat else broken, indent, mode, m, m');
    case Fill(parts) => BetterItems(style, parts, indent, Flat, m, m');
    case FillRest(parts) => BetterItems(style, parts, indent, Flat, m, m');
    case _ =>
  }

  lemma {:induction false} BetterItems(style: Style, docs: seq<Doc>, indent: nat, mode: Mode, m: Meter, m': Meter)
    requires Better(style, m, m')
    ensures BetterVerdict(style, FitsItems(style, docs, indent, mode, m), FitsItems(style, docs, indent, mode, m'))
    decreases docs
  {
    hide Silent, FitsItem;
    if docs != [] {
      BetterItem(style, docs[0], indent, mode, m, m');
      var first, first' := FitsItem(style, docs[0], indent, mode, m), FitsItem(style, docs[0], indent, mode, m');
      if first.Continue? {
        BetterItems(style, docs[1..], indent, mode, first.meter, first'.meter);
      }
    }
  }

  lemma {:induction false} BetterRest(style: Style, stack: seq<Entry>, m: Meter, m': Meter)
    requires Better(style, m, m')
    ensures BetterVerdict(style, FitsRest(style, stack, m), FitsRest(style, stack, m'))
    decreases |stack|
  {
    hide Silent, FitsItem;
    if stack != [] {
      var e := stack[|stack| - 1];
      BetterItem(style, e.doc, e.indent, e.mode, m, m');
      var first, first' := FitsItem(style, e.doc, e.indent, e.mode, m), FitsItem(style, e.doc, e.indent, e.mode, m');
      if first.Continue? {
        BetterRest(style, stack[..|stack| - 1], first.meter, first'.meter);
      }
    }
  }

  /** Inside a group both ways of measuring are the same. */
  lemma {:induction false} InnerIsItem(style: Style, doc: Doc, indent: nat, m: Meter)
    requires Tidy(doc) && Joined(doc)
    ensures FitsItem(style, doc, indent, Flat, m) == AsVerdict(FitsInner(style, doc, indent, m))
    decreases doc
  {
    match doc
    case Concat(docs) => AllAreItems(style, docs, indent, m);
    case Indent(inner) => InnerIsItem(style, inner, indent + 1, m);
    case Group(inner) =>
    case IfBreak(_, flat) => InnerIsItem(style, flat, indent, m);
    case Fill(parts) => AllAreItems(style, parts, indent, m);
    case FillRest(parts) => AllAreItems(style, parts, indent, m);
    case _ =>
  }

  lemma {:induction false} AllAreItems(style: Style, docs: seq<Doc>, indent: nat, m: Meter)
    requires AllTidy(docs) && AllJoined(docs)
    ensures FitsItems(style, docs, indent, Flat, m) == AsVerdict(FitsAll(style, docs, indent, m))
    decreases docs
  {
    hide FitsItem, FitsInner;
    if docs != [] {
      InnerIsItem(style, docs[0], indent, m);
      var first := FitsInner(style, docs[0], indent, m);
      if first.Some? {
        AllAreItems(style, docs[1..], indent, first.value);
      }
    }
  }

  /** The rest of the line is measured entry by entry. */
  lemma {:induction false} RestAdds(style: Style, below: seq<Entry>, more: seq<Entry>, m: Meter)
    ensures FitsRest(style, below + more, m)
            == var first := FitsRest(style, more, m);
               if !first.Continue? then first else FitsRest(style, below, first.meter)
    decreases |more|
  {
    hide FitsItem;
    var all := below + more;
    if more == [] {
      assert all == below;
    } else {
      var n := |more| - 1;
      assert all[|all| - 1] == more[n] && all[..|all| - 1] == below + more[..n];
      var first := FitsItem(style, more[n].doc, more[n].indent, more[n].mode, m);
      if first.Continue? {
        RestAdds(style, below, more[..n], first.meter);
      }
    }
  }

  lemma RestOne(style: Style, e: Entry, m: Meter)
    ensures FitsRest(style, [e], m) == FitsItem(style, e.doc, e.indent, e.mode, m)
  {
    hide FitsItem;
    var first := FitsItem(style, e.doc, e.indent, e.mode, m);
    assert [e][..0] == [];
    if first.Continue? {
      assert FitsRest(style, [e][..0], first.meter) == first;
    }
  }

  lemma {:induction false} RestStacked(style: Style, docs: seq<Doc>, indent: nat, mode: Mode, m: Meter)
    ensures FitsRest(style, Stacked(docs, indent, mode), m) == FitsItems(style, docs, indent, mode, m)
    decreases |docs|
  {
    hide FitsItem;
    if docs != [] {
      var top := Entry(indent, mode, docs[0]);
      RestAdds(style, Stacked(docs[1..], indent, mode), [top], m);
      RestOne(style, top, m);
      var first := FitsItem(style, docs[0], indent, mode, m);
      if first.Continue? {
        RestStacked(style, docs[1..], indent, mode, first.meter);
      }
    }
  }

  // ---- Writing on a line

  predicate MidLine(pen: Pen) {
    !AtLineStart(pen)
  }

  /** The entry ends the line. */
  predicate EndsLine(e: Entry) {
    match e.doc
    case Hardline => true
    case BlankLine => true
    case LineStart(_) => true
    case Line => e.mode.Break?
    case PreservedLine => e.mode.Break?
    case Softline => e.mode.Break?
    case _ => false
  }

  lemma {:induction false} BytesEnough(text: string)
    ensures |text| <= ByteLength(text)
  {
    if text != "" {
      BytesEnough(text[..|text| - 1]);
    }
  }

  lemma {:induction false} RawOnLine(column: nat, text: string)
    requires OneLine(text)
    ensures RawColumn(column, text) == column + |text|
  {
    if text != "" {
      var n := |text| - 1;
      assert text[n] in text;
      assert forall c :: c in text[..n] ==> c in text;
      RawOnLine(column, text[..n]);
    }
  }

  /** Text without a line break, from mid-line, stays on the line. */
  predicate GoesOn(pen: Pen, pen': Pen) {
    && |pen.output| <= |pen'.output| && pen.output == pen'.output[..|pen.output|]
    && OneLine(pen'.output[|pen.output|..])
    && pen.column + (|pen'.output| - |pen.output|) <= pen'.column
  }

  lemma Appended(pen: Pen, pen': Pen, text: string)
    requires pen'.output == pen.output + text && OneLine(text) && pen.column + |text| <= pen'.column && MidLine(pen)
    ensures GoesOn(pen, pen') && MidLine(pen')
  {
    assert pen'.output[|pen.output|..] == text && pen'.output[..|pen.output|] == pen.output;
    if text != "" {
      assert pen'.output[|pen'.output| - 1] == text[|text| - 1] && text[|text| - 1] in text;
    }
  }

  /** A document that is written at once. */
  predicate Writes(doc: Doc) {
    doc.Empty? || doc.Token? || doc.Raw? || doc.Line? || doc.PreservedLine? || doc.Softline?
  }

  /** What is written on the line is what was measured, or less. */
  lemma WritesAsMeasured(style: Style, pen: Pen, e: Entry)
    requires Quiet(style) && MidLine(pen) && pen.column <= style.maxLength && Tidy(e.doc) && !EndsLine(e)
    requires Writes(e.doc)
    requires !FitsItem(style, e.doc, e.indent, e.mode, MeterAt(style, pen, 0)).Overflow?
    ensures var pen' := PenAfter(style, pen, e);
            var v := FitsItem(style, e.doc, e.indent, e.mode, MeterAt(style, pen, 0));
            && GoesOn(pen, pen') && MidLine(pen') && pen'.column <= style.maxLength
            && v.Continue? && Better(style, v.meter, MeterAt(style, pen', 0))
  {
    hide ByteLength, RawColumn, IsSpace;
    var pen' := PenAfter(style, pen, e);
    match e.doc
    case Token(text, kind, parent) =>
      BytesEnough(text);
      var space := if style.needsSpace(pen.kind, pen.parent, kind, parent) then " " else "";
      assert pen'.output == pen.output + (space + text);
      Appended(pen, pen', space + text);
    case Raw(text) =>
      BytesEnough(text);
      RawOnLine(pen.column, text);
      Appended(pen, pen', text);
    case Line => Appended(pen, pen', " ");
    case PreservedLine => Appended(pen, pen', " ");
    case _ => Appended(pen, pen', "");
  }

  lemma FillRestMeasured(style: Style, indent: nat, mode: Mode, parts: seq<Doc>, m: Meter)
    requires |parts| >= 2
    ensures var rest := if |parts| > 2 then [Entry(indent, mode, FillRest(parts[2..]))] else [];
            FitsRest(style, rest, m) == FitsItems(style, parts[2..], indent, Flat, m)
  {
    hide FitsItems;
    if |parts| > 2 {
      RestOne(style, Entry(indent, mode, FillRest(parts[2..])), m);
    } else {
      NothingFits(style, indent, m);
      assert parts[2..] == [];
    }
  }

  lemma NothingFits(style: Style, indent: nat, m: Meter)
    ensures FitsItems(style, [], indent, Flat, m) == Verdict.Continue(m)
  {}

  lemma TwoItems(style: Style, parts: seq<Doc>, indent: nat, m: Meter)
    requires |parts| >= 2
    ensures FitsItems(style, parts, indent, Flat, m)
            == var a := FitsItem(style, parts[0], indent, Flat, m);
               if !a.Continue? then a
               else
                 var b := FitsItem(style, parts[1], indent, Flat, a.meter);
                 if !b.Continue? then b else FitsItems(style, parts[2..], indent, Flat, b.meter)
  {
    hide FitsItem;
    assert parts[1..][0] == parts[1] && parts[1..][1..] == parts[2..];
  }

  lemma PairMeasured(style: Style, rest: seq<Entry>, content: Entry, sep: Entry, m: Meter)
    ensures FitsRest(style, rest + [content, sep], m)
            == var a := FitsItem(style, sep.doc, sep.indent, sep.mode, m);
               if !a.Continue? then a
               else
                 var b := FitsItem(style, content.doc, content.indent, content.mode, a.meter);
                 if !b.Continue? then b else FitsRest(style, rest, b.meter)
  {
    hide FitsItem;
    var stack := rest + [content, sep];
    assert stack[|stack| - 1] == sep && stack[..|stack| - 1] == rest + [content];
    assert (rest + [content])[|rest|] == content && (rest + [content])[..|rest|] == rest;
  }

  /** A fill goes on as measured, or its separator ends the line. */
  lemma FillMeasured(style: Style, pen: Pen, indent: nat, mode: Mode, parts: seq<Doc>, m: Meter)
    requires Separated(parts) && AllTidy(parts)
    ensures var v := FitsRest(style, FillEntries(style, pen, indent, mode, parts), m);
            v == FitsItems(style, parts, indent, Flat, m) || v.LineBreak?
  {
    hide FitsItem, FitsItems, FitsRest, SeparatorMode;
    if |parts| < 2 {
      RestStacked(style, parts, indent, Flat, m);
    } else {
      var sepMode := SeparatorMode(style, pen, indent, mode, parts[0], parts[1]);
      var rest := if |parts| > 2 then [Entry(indent, mode, FillRest(parts[2..]))] else [];
      PairMeasured(style, rest, Entry(indent, Flat, parts[1]), Entry(indent, sepMode, parts[0]), m);
      TwoItems(style, parts, indent, m);
      if sepMode.Break? {
        SeparatorEnds(style, parts[0], indent, m);
      } else {
        var a := FitsItem(style, parts[0], indent, Flat, m);
        if a.Continue? {
          var b := FitsItem(style, parts[1], indent, Flat, a.meter);
          if b.Continue? {
            FillRestMeasured(style, indent, mode, parts, b.meter);
          }
        }
      }
    }
  }

  lemma SeparatorEnds(style: Style, sep: Doc, indent: nat, m: Meter)
    requires IsSeparator(sep)
    ensures FitsItem(style, sep, indent, Mode.Break, m).LineBreak?
  {}

  lemma {:induction false} StackedTidy(docs: seq<Doc>, indent: nat, mode: Mode)
    requires AllTidy(docs)
    ensures TidyStack(Stacked(docs, indent, mode))
    decreases |docs|
  {
    hide Tidy;
    if docs != [] {
      StackedTidy(docs[1..], indent, mode);
    }
  }

  lemma {:induction false} RestTidy(parts: seq<Doc>)
    requires Separated(parts) && AllTidy(parts) && |parts| >= 2
    ensures Tidy(FillRest(parts[2..]))
  {}

  lemma EntriesTidy(style: Style, pen: Pen, e: Entry, below: seq<Entry>)
    requires Tidy(e.doc)
    ensures TidyStack(EntriesAfter(style, pen, e, below))
  {
    hide FitsGroup, SeparatorMode;
    match e.doc
    case Concat(docs) => StackedTidy(docs, e.indent, e.mode);
    case FillRest(parts) =>
      if |parts| < 2 {
        StackedTidy(parts, e.indent, Flat);
      } else {
        RestTidy(parts);
      }
    case _ =>
  }

  /** A group whose check has no less room than was measured is chosen flat. */
  lemma GroupChosen(style: Style, pen: Pen, below: seq<Entry>, e: Entry, m: Meter)
    requires e.doc.Group? && Better(style, m, MeterAt(style, pen, e.indent))
    requires !FitsRest(style, below + [e], m).Overflow?
    ensures FitsGroup(style, pen, e.doc.inner, e.indent, below)
  {
    hide FitsInner, FitsRest, MeterAt, Better;
    var there := MeterAt(style, pen, e.indent);
    RestAdds(style, below, [e], m);
    RestOne(style, e, m);
    var fits := FitsInner(style, e.doc.inner, e.indent, m);
    BetterInner(style, e.doc.inner, e.indent, m, there);
    BetterRest(style, below, fits.value, FitsInner(style, e.doc.inner, e.indent, there).value);
  }

  /** An unfolded entry is measured as before, or a separator in it ends the line. */
  lemma UnfoldsAsMeasured(style: Style, pen: Pen, e: Entry, below: seq<Entry>, m: Meter)
    requires TidyStack(below + [e]) && !FitsRest(style, below + [e], m).Overflow? && !Writes(e.doc) && !EndsLine(e)
    requires e.doc.Group? ==> FitsGroup(style, pen, e.doc.inner, e.indent, below)
    ensures var more := EntriesAfter(style, pen, e, below);
            TidyStack(below + more) && !FitsRest(style, below + more, m).Overflow?
  {
    hide Tidy, Joined, FitsItems, FitsInner, FitsRest, FillEntries, Stacked, FitsGroup;
    var more := EntriesAfter(style, pen, e, below);
    assert (below + [e])[|below|] == e;
    RestAdds(style, below, [e], m);
    RestOne(style, e, m);
    RestAdds(style, below, more, m);
    EntriesTidy(style, pen, e, below);
    TidyParts(below, e);
    match e.doc
    case Concat(docs) => RestStacked(style, docs, e.indent, e.mode, m);
    case Indent(_) => RestOne(style, more[0], m);
    case Group(inner) =>
      GroupTidy(inner);
      InnerIsItem(style, inner, e.indent, m);
      RestOne(style, more[0], m);
    case IfBreak(_, _) => RestOne(style, more[0], m);
    case Fill(_) => RestOne(style, more[0], m);
    case FillRest(parts) =>
      FillTidy(parts);
      FillMeasured(style, pen, e.indent, e.mode, parts, m);
  }

  lemma TidyParts(below: seq<Entry>, e: Entry)
    requires TidyStack(below + [e])
    ensures TidyStack(below) && Tidy(e.doc)
  {
    hide Tidy;
    assert (below + [e])[|below|] == e;
    forall i | 0 <= i < |below| ensures Tidy(below[i].doc) {
      assert (below + [e])[i] == below[i];
    }
  }

  lemma GroupTidy(inner: Doc)
    requires Tidy(Group(inner))
    ensures Tidy(inner) && Joined(inner)
  {}

  lemma FillTidy(parts: seq<Doc>)
    requires Tidy(FillRest(parts))
    ensures Separated(parts) && AllTidy(parts)
  {}
}
