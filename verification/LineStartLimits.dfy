/** The start of a line: each condition on it is exact, for it fails only where some document fails. */
module LineStartLimits {
  import opened PascalSyntax
  import opened LayoutDocs
  import opened LayoutLaws
  import opened LineStarts
  import opened LayoutTheorems

  // ---- What is asked of a group at the start of a line

  predicate OnNewLine(pen: Pen) {
    AtLineStart(pen) && Grounded(pen) && Counted(pen)
  }

  ghost predicate Keeps(style: Style, pen: Pen, stack: seq<Entry>, indent: nat, inner: Doc) {
    WrittenFlat(style, pen, stack, indent, Flat, inner) && KeepsWithin(style, pen, stack, indent, Flat, inner)
  }

  /** A group that is chosen keeps its line. */
  ghost predicate ChosenKeeps(style: Style, pen: Pen, stack: seq<Entry>, indent: nat, inner: Doc) {
    TidyStack(stack) && Tidy(Group(inner)) && FitsGroup(style, pen, inner, indent, stack) ==>
        Keeps(style, pen, stack, indent, inner)
  }

  /** The room with which a group at the start of a line is measured. */
  function RoomAt(style: Style, indent: nat): nat {
    Left(style, IndentWidth(style, indent))
  }

  lemma SecureKeeps(style: Style, pen: Pen, stack: seq<Entry>, indent: nat, inner: Doc)
    requires Quiet(style) && OnNewLine(pen) && Secure(style, pen, stack, indent, inner)
    ensures ChosenKeeps(style, pen, stack, indent, inner)
  {
    hide Quiet, Tidy, FitsGroup, Secure, WrittenFlat, KeepsWithin, LineWidth;
    if TidyStack(stack) && Tidy(Group(inner)) && FitsGroup(style, pen, inner, indent, stack) {
      ChosenFlatIsFlat(style, pen, stack, indent, Flat, inner);
      ChosenFlatKeepsWithin(style, pen, stack, indent, Flat, inner);
    }
  }

  lemma SecureStart(style: Style, pen: Pen, stack: seq<Entry>, indent: nat, inner: Doc)
    requires OnNewLine(pen)
    requires !StackStart(style, RoomAt(style, indent), stack + [Entry(indent, Flat, inner)], pen.kind,
                         pen.parent).Risky?
    ensures Secure(style, pen, stack, indent, inner)
  {}

  // ---- Documents to fail with

  function Filler(n: nat): string {
    seq(n, _ => 'x')
  }

  lemma {:induction false} FillerWidth(n: nat)
    ensures OneLine(Filler(n)) && |Filler(n)| == n && ByteLength(Filler(n)) == n
    decreases n
  {
    if n > 0 {
      FillerWidth(n - 1);
      assert Filler(n)[..n - 1] == Filler(n - 1);
    }
  }

  /** A document some levels deeper. */
  function Deep(n: nat, doc: Doc): Doc {
    if n == 0 then doc else Indent(Deep(n - 1, doc))
  }

  lemma {:induction false} DeepFits(style: Style, n: nat, doc: Doc, indent: nat, m: Meter)
    ensures FitsInner(style, Deep(n, doc), indent, m) == FitsInner(style, doc, indent + n, m)
    ensures Tidy(Deep(n, doc)) == Tidy(doc) && Joined(Deep(n, doc)) == Joined(doc)
    decreases n
  {
    if n > 0 {
      DeepFits(style, n - 1, doc, indent + 1, m);
    }
  }

  lemma {:induction false} DeepStart(
    style: Style, room: nat, n: nat, doc: Doc, indent: nat, kind: string, parent: string)
    ensures DocStart(style, room, Deep(n, doc), indent, Flat, kind, parent)
            == DocStart(style, room, doc, indent + n, Flat, kind, parent)
    decreases n
  {
    if n > 0 {
      DeepStart(style, room, n - 1, doc, indent + 1, kind, parent);
    }
  }

  lemma {:induction false} DeepDrains(style: Style, pen: Pen, below: seq<Entry>, n: nat, doc: Doc, indent: nat)
    ensures Drained(style, pen, below + [Entry(indent, Flat, Deep(n, doc))])
            == Drained(style, pen, below + [Entry(indent + n, Flat, doc)])
    decreases n
  {
    hide Drained;
    if n > 0 {
      DrainStep(style, pen, below, Entry(indent, Flat, Deep(n, doc)));
      DeepDrains(style, pen, below, n - 1, doc, indent + 1);
    }
  }

  /** The stack starts the line as its first entry does, when that is not open. */
  lemma StartTop(style: Style, room: nat, below: seq<Entry>, e: Entry, kind: string, parent: string)
    ensures var first := DocStart(style, room, e.doc, e.indent, e.mode, kind, parent);
            !first.Open? ==> StackStart(style, room, below + [e], kind, parent) == first
  {
    hide DocStart, StackStart;
    StartAdds(style, room, below, [e], kind, parent);
    StartOne(style, room, e, kind, parent);
  }

  lemma NoStack()
    ensures TidyStack([])
  {}

  lemma One(e: Entry)
    ensures [] + [e] == [e]
  {}

  lemma NewLineWidth(pen: Pen)
    requires OnNewLine(pen)
    ensures LineWidth(pen.output) == 0 && pen.column == 0
  {}

  // ---- A token

  /** The token writes something: text, or indentation. */
  predicate Visible(style: Style, level: nat, token: Doc) {
    token.Token? && OneLine(token.text) && (token.text != "" || IndentWidth(style, level) > 0)
  }

  ghost predicate TokenKeeps(style: Style, pen: Pen, indent: nat, n: nat, token: Doc, stack: seq<Entry>) {
    Visible(style, indent + n, token) ==> ChosenKeeps(style, pen, stack, indent, Deep(n, token))
  }

  /** A token at the start of a line writes its indentation and its text. */
  lemma TokenWritten(style: Style, pen: Pen, level: nat, token: Doc)
    requires OnNewLine(pen) && token.Token? && OneLine(token.text)
    ensures var end := PenAfter(style, pen, Entry(level, Flat, token));
            && Extends(pen, end) && FirstLine(Added(pen, end)) == IndentWidth(style, level) + |token.text|
            && Drained(style, pen, [Entry(level, Flat, token)]) == end
  {
    hide Drained, ByteLength, FirstLine;
    var e := Entry(level, Flat, token);
    var end := PenAfter(style, pen, e);
    One(e);
    DrainStep(style, pen, [], e);
    NoMore([]);
    DrainNothing(style, end);
    IndentsOneLine(style, level);
    var all := IndentText(style, level) + token.text;
    assert end.output == pen.output + all;
    assert end.output[..|pen.output|] == pen.output && end.output[|pen.output|..] == all;
    FirstLineAdds(all, "");
    assert all + "" == all;
    NothingFirst();
  }

  lemma NothingFirst()
    ensures FirstLine("") == 0
  {}

  /** A first token that fills the room is chosen. */
  lemma TokenChosen(style: Style, pen: Pen, indent: nat, n: nat, kind: string, parent: string)
    requires Quiet(style) && OnNewLine(pen)
    ensures var token := Token(Filler(RoomAt(style, indent)), kind, parent);
            Tidy(Group(Deep(n, token))) && FitsGroup(style, pen, Deep(n, token), indent, [])
  {
    hide Deep, Filler, ByteLength;
    var room := RoomAt(style, indent);
    var token := Token(Filler(room), kind, parent);
    FillerWidth(room);
    DeepFits(style, n, token, indent, MeterAt(style, pen, indent));
    assert !style.needsSpace("", "", kind, parent);
  }

  /**
    A line that starts with a token of the group keeps within the limit whatever follows, if
    and only if the token's indentation leaves the room that was measured.
    */
  lemma TokenStartExact(style: Style, pen: Pen, indent: nat, n: nat)
    requires Quiet(style) && OnNewLine(pen)
    ensures SafeToken(style, RoomAt(style, indent), indent + n) <==>
            forall token, stack :: TokenKeeps(style, pen, indent, n, token, stack)
  {
    var room, level := RoomAt(style, indent), indent + n;
    hide Quiet, ChosenKeeps, Secure, Deep, Filler;
    if SafeToken(style, room, level) {
      forall token, stack ensures TokenKeeps(style, pen, indent, n, token, stack) {
        if Visible(style, level, token) {
          DeepStart(style, room, n, token, indent, pen.kind, pen.parent);
          StartTop(style, room, stack, Entry(indent, Flat, Deep(n, token)), pen.kind, pen.parent);
          SecureStart(style, pen, stack, indent, Deep(n, token));
          SecureKeeps(style, pen, stack, indent, Deep(n, token));
        }
      }
    } else {
      TokenOverflows(style, pen, indent, n, "", "");
    }
  }

  lemma TokenOverflows(style: Style, pen: Pen, indent: nat, n: nat, kind: string, parent: string)
    requires Quiet(style) && OnNewLine(pen) && !SafeToken(style, RoomAt(style, indent), indent + n)
    ensures !TokenKeeps(style, pen, indent, n, Token(Filler(RoomAt(style, indent)), kind, parent), [])
  {
    hide Quiet, Deep, Filler, Drained, FitsGroup, Tidy, FirstLine, LineWidth, WrittenFlat;
    var room, level := RoomAt(style, indent), indent + n;
    var token := Token(Filler(room), kind, parent);
    var inner := Deep(n, token);
    FillerWidth(room);
    TokenChosen(style, pen, indent, n, kind, parent);
    NoStack();
    ChosenStep(style, pen, [], indent, Flat, inner);
    DeepDrains(style, pen, [], n, token, indent);
    One(Entry(level, Flat, token));
    TokenWritten(style, pen, level, token);
    NewLineWidth(pen);
    assert !KeepsWithin(style, pen, [], indent, Flat, inner);
  }

  // ---- A token behind a group that writes nothing

  ghost predicate NextTokenKeeps(style: Style, pen: Pen, indent: nat, level: nat, token: Doc, stack: seq<Entry>) {
    Visible(style, level, token) ==> ChosenKeeps(style, pen, stack + [Entry(level, Flat, token)], indent, Empty)
  }

  /** The same when the group writes nothing and the first token comes from the stack, at any level. */
  lemma NextTokenExact(style: Style, pen: Pen, indent: nat, level: nat)
    requires Quiet(style) && OnNewLine(pen)
    ensures SafeToken(style, RoomAt(style, indent), level) <==>
            forall token, stack :: NextTokenKeeps(style, pen, indent, level, token, stack)
  {
    var room := RoomAt(style, indent);
    hide Quiet, ChosenKeeps, Secure, Filler;
    if SafeToken(style, room, level) {
      forall token, stack ensures NextTokenKeeps(style, pen, indent, level, token, stack) {
        if Visible(style, level, token) {
          var all := stack + [Entry(level, Flat, token)];
          StartAdds(style, room, all, [Entry(indent, Flat, Empty)], pen.kind, pen.parent);
          StartOne(style, room, Entry(indent, Flat, Empty), pen.kind, pen.parent);
          StartTop(style, room, stack, Entry(level, Flat, token), pen.kind, pen.parent);
          SecureStart(style, pen, all, indent, Empty);
          SecureKeeps(style, pen, all, indent, Empty);
        }
      }
    } else {
      NextTokenOverflows(style, pen, indent, level, "", "");
    }
  }

  lemma NextTokenOverflows(style: Style, pen: Pen, indent: nat, level: nat, kind: string, parent: string)
    requires Quiet(style) && OnNewLine(pen) && !SafeToken(style, RoomAt(style, indent), level)
    ensures !NextTokenKeeps(style, pen, indent, level, Token(Filler(RoomAt(style, indent)), kind, parent), [])
  {
    hide Quiet, Filler, Drained, FirstLine, LineWidth, WrittenFlat, FitsRest, ByteLength;
    var room := RoomAt(style, indent);
    var token := Token(Filler(room), kind, parent);
    var stack := [Entry(level, Flat, token)];
    One(stack[0]);
    FillerWidth(room);
    NextTokenChosen(style, pen, indent, level, token);
    ChosenStep(style, pen, stack, indent, Flat, Empty);
    DrainStep(style, pen, stack, Entry(indent, Flat, Empty));
    NoMore(stack);
    TokenWritten(style, pen, level, token);
    NewLineWidth(pen);
    assert !KeepsWithin(style, pen, stack, indent, Flat, Empty);
  }

  lemma NextTokenChosen(style: Style, pen: Pen, indent: nat, level: nat, token: Doc)
    requires Quiet(style) && OnNewLine(pen) && token.Token? && ByteLength(token.text) <= RoomAt(style, indent)
    ensures FitsGroup(style, pen, Empty, indent, [Entry(level, Flat, token)])
  {
    hide ByteLength;
    RestOne(style, Entry(level, Flat, token), MeterAt(style, pen, indent));
    assert !style.needsSpace("", "", token.kind, token.parent);
  }

  // ---- Raw text

  ghost predicate RawKeeps(style: Style, pen: Pen, indent: nat, text: string, stack: seq<Entry>) {
    ChosenKeeps(style, pen, stack, indent, Raw(text))
  }

  /** A line that starts with this raw text keeps within the limit whatever follows, if and only if the text is safe. */
  lemma RawStartExact(style: Style, pen: Pen, indent: nat, text: string)
    requires Quiet(style) && OnNewLine(pen) && text != "" && OneLine(text)
    ensures SafeRaw(style, RoomAt(style, indent), text, pen.kind, pen.parent) <==>
            forall stack :: RawKeeps(style, pen, indent, text, stack)
  {
    var room := RoomAt(style, indent);
    hide Quiet, ChosenKeeps, Secure, Filler, SafeRaw;
    if SafeRaw(style, room, text, pen.kind, pen.parent) {
      forall stack ensures RawKeeps(style, pen, indent, text, stack) {
        StartTop(style, room, stack, Entry(indent, Flat, Raw(text)), pen.kind, pen.parent);
        SecureStart(style, pen, stack, indent, Raw(text));
        SecureKeeps(style, pen, stack, indent, Raw(text));
      }
    } else {
      var stack := RawOverflows(style, pen, indent, text);
    }
  }

  /** Unsafe raw text: some token behind it needs a space that was not measured. */
  lemma RawOverflows(style: Style, pen: Pen, indent: nat, text: string) returns (stack: seq<Entry>)
    requires Quiet(style) && OnNewLine(pen) && text != "" && OneLine(text)
    requires !SafeRaw(style, RoomAt(style, indent), text, pen.kind, pen.parent)
    ensures !RawKeeps(style, pen, indent, text, stack)
  {
    BytesEnough(text);
    var room := RoomAt(style, indent);
    assert room == style.maxLength && ByteLength(text) == |text| <= room;
    var k, p :| style.needsSpace(pen.kind, pen.parent, k, p);
    var token := Token(Filler(room - |text|), k, p);
    stack := [Entry(0, Flat, token)];
    FillerWidth(room - |text|);
    hide Filler, ByteLength, Drained, FirstLine, LineWidth, WrittenFlat, FitsRest, RawColumn, IsSpace, SafeRaw;
    RawChosen(style, pen, indent, text, token);
    ChosenStep(style, pen, stack, indent, Flat, Raw(text));
    RawWritten(style, pen, indent, text, token);
    NewLineWidth(pen);
    assert !KeepsWithin(style, pen, stack, indent, Flat, Raw(text));
    assert Tidy(token) && Tidy(Group(Raw(text)));
  }

  lemma RawChosen(style: Style, pen: Pen, indent: nat, text: string, token: Doc)
    requires Quiet(style) && OnNewLine(pen) && OneLine(text) && token.Token?
    requires ByteLength(text) + ByteLength(token.text) <= RoomAt(style, indent)
    ensures FitsGroup(style, pen, Raw(text), indent, [Entry(0, Flat, token)])
  {
    hide ByteLength;
    RestOne(style, Entry(0, Flat, token), FitsInner(style, Raw(text), indent, MeterAt(style, pen, indent)).value);
    assert !style.needsSpace("", "", token.kind, token.parent);
  }

  lemma RawWritten(style: Style, pen: Pen, indent: nat, text: string, token: Doc)
    requires OnNewLine(pen) && text != "" && OneLine(text) && !EndsBlank(text) && token.Token? && OneLine(token.text)
    requires style.needsSpace(pen.kind, pen.parent, token.kind, token.parent)
    ensures var end := Drained(style, pen, [Entry(0, Flat, token)] + [Entry(indent, Flat, Raw(text))]);
            Extends(pen, end) && FirstLine(Added(pen, end)) == |text| + 1 + |token.text|
  {
    hide Drained, ByteLength, FirstLine, RawColumn, IsSpace, LineWidth;
    var raw, next := Entry(indent, Flat, Raw(text)), Entry(0, Flat, token);
    var none: seq<Entry> := [];
    var p1 := PenAfter(style, pen, raw);
    var p2 := PenAfter(style, p1, next);
    assert [next] + none == [next] && none + [next] == [next] && none + none == none;
    DrainStep(style, pen, [next], raw);
    RawOnLine(pen.column, text);
    StartAppended(pen, p1, text);
    assert !AtLineStart(p1) && p1.kind == pen.kind && p1.parent == pen.parent;
    DrainStep(style, p1, none, next);
    DrainNothing(style, p2);
    var all := text + " " + token.text;
    assert p2.output == pen.output + all;
    assert p2.output[..|pen.output|] == pen.output && p2.output[|pen.output|..] == all;
    FirstLineAdds(all, "");
    assert all + "" == all;
    NothingFirst();
  }

  // ---- A further group

  ghost predicate ChoiceKeeps(style: Style, pen: Pen, indent: nat, n: nat, inner: Doc, stack: seq<Entry>) {
    !StackStart(style, RoomAt(style, indent), stack + [Entry(indent + n, Flat, inner)], pen.kind, pen.parent).Risky?
    ==> ChosenKeeps(style, pen, stack, indent, Deep(n, Group(inner)))
  }

  /**
    A line that starts with a further group, and safely inside it, keeps the whole flat if and
    only if that group is decided with no less room.
    */
  lemma ChoiceStartExact(style: Style, pen: Pen, indent: nat, n: nat)
    requires Quiet(style) && OnNewLine(pen)
    ensures SafeChoice(style, RoomAt(style, indent), indent + n) <==>
            forall inner, stack :: ChoiceKeeps(style, pen, indent, n, inner, stack)
  {
    var room, level := RoomAt(style, indent), indent + n;
    hide Quiet, ChosenKeeps, Secure, Deep, Filler;
    if SafeChoice(style, room, level) {
      forall inner, stack ensures ChoiceKeeps(style, pen, indent, n, inner, stack) {
        if !StackStart(style, room, stack + [Entry(level, Flat, inner)], pen.kind, pen.parent).Risky? {
          ChoiceStart(style, room, stack, indent, n, inner, pen.kind, pen.parent);
          SecureStart(style, pen, stack, indent, Deep(n, Group(inner)));
          SecureKeeps(style, pen, stack, indent, Deep(n, Group(inner)));
        }
      }
    } else {
      ChoiceBreaks(style, pen, indent, n);
    }
  }

  lemma ChoiceStart(
    style: Style, room: nat, stack: seq<Entry>, indent: nat, n: nat, inner: Doc, kind: string, parent: string)
    requires SafeChoice(style, room, indent + n)
    ensures StackStart(style, room, stack + [Entry(indent, Flat, Deep(n, Group(inner)))], kind, parent)
            == StackStart(style, room, stack + [Entry(indent + n, Flat, inner)], kind, parent)
  {
    hide StackStart, Deep;
    StartAdds(style, room, stack, [Entry(indent, Flat, Deep(n, Group(inner)))], kind, parent);
    StartOne(style, room, Entry(indent, Flat, Deep(n, Group(inner))), kind, parent);
    DeepStart(style, room, n, Group(inner), indent, kind, parent);
    StartAdds(style, room, stack, [Entry(indent + n, Flat, inner)], kind, parent);
    StartOne(style, room, Entry(indent + n, Flat, inner), kind, parent);
  }

  /** A blank and text that together fill the room. */
  function Spread(room: nat): Doc
    requires room > 0
  {
    Concat([Line, Raw(Filler(room - 1))])
  }

  lemma SpreadFits(style: Style, room: nat, indent: nat, m: Meter)
    requires room > 0
    ensures FitsInner(style, Spread(room), indent, m)
            == if room <= m.remaining then Some(m.(remaining := m.remaining - room)) else None
    ensures Tidy(Spread(room)) && Joined(Spread(room))
  {
    hide Filler, ByteLength;
    FillerWidth(room - 1);
    var docs := [Line, Raw(Filler(room - 1))];
    assert docs[1..] == [Raw(Filler(room - 1))] && docs[1..][1..] == [];
    var first := FitsInner(style, docs[0], indent, m);
    if first.Some? {
      var second := FitsInner(style, docs[1], indent, first.value);
      assert FitsAll(style, docs[1..], indent, first.value) == second;
    }
    assert forall i :: 0 <= i < |docs| ==> Tidy(docs[i]) && Joined(docs[i]);
  }

  lemma ChoiceBreaks(style: Style, pen: Pen, indent: nat, n: nat)
    requires Quiet(style) && OnNewLine(pen) && !SafeChoice(style, RoomAt(style, indent), indent + n)
    ensures !ChoiceKeeps(style, pen, indent, n, Spread(RoomAt(style, indent)), [])
  {
    hide Quiet, Deep, Drained, FitsGroup, Tidy, Joined, KeepsWithin, StackStart, Spread, FlatPen;
    var room, level := RoomAt(style, indent), indent + n;
    var inner := Spread(room);
    var whole := Deep(n, Group(inner));
    NoStack();
    ChoiceFits(style, pen, indent, n);
    ChoiceSettles(style, room, level, pen.kind, pen.parent);
    ChosenStep(style, pen, [], indent, Flat, whole);
    DeepDrains(style, pen, [], n, Group(inner), indent);
    BrokenChoice(style, pen, level, room);
    FlatChoice(style, pen, indent, n, room);
    var end := Drained(style, pen, [] + [Entry(level, Flat, Group(inner))]);
    DrainNothing(style, FlatPen(style, pen, whole, indent));
    assert end.output[|pen.output|] == NEWLINE && FlatPen(style, pen, whole, indent).output[|pen.output|] == ' ';
  }

  lemma ChoiceFits(style: Style, pen: Pen, indent: nat, n: nat)
    requires OnNewLine(pen) && RoomAt(style, indent) > 0
    ensures var whole := Deep(n, Group(Spread(RoomAt(style, indent))));
            Tidy(Group(whole)) && FitsGroup(style, pen, whole, indent, [])
  {
    hide Deep, Spread;
    var room := RoomAt(style, indent);
    var m := MeterAt(style, pen, indent);
    SpreadFits(style, room, indent + n, m);
    DeepFits(style, n, Group(Spread(room)), indent, m);
  }

  lemma ChoiceSettles(style: Style, room: nat, level: nat, kind: string, parent: string)
    requires room > 0
    ensures StackStart(style, room, [] + [Entry(level, Flat, Spread(room))], kind, parent).Settled?
  {
    hide Filler;
    var docs := [Line, Raw(Filler(room - 1))];
    assert DocsStart(style, room, docs, level, Flat, kind, parent)
           == DocStart(style, room, Line, level, Flat, kind, parent);
    StartTop(style, room, [], Entry(level, Flat, Spread(room)), kind, parent);
  }

  lemma BrokenChoice(style: Style, pen: Pen, level: nat, room: nat)
    requires OnNewLine(pen) && !SafeChoice(style, room, level)
    ensures var end := Drained(style, pen, [] + [Entry(level, Flat, Group(Spread(room)))]);
            |end.output| > |pen.output| && end.output[|pen.output|] == NEWLINE
  {
    hide Drained, Filler, StackStart;
    var docs := [Line, Raw(Filler(room - 1))];
    var none: seq<Entry> := [];
    SpreadFits(style, room, level, MeterAt(style, pen, level));
    assert !FitsGroup(style, pen, Spread(room), level, none);
    DrainStep(style, pen, none, Entry(level, Flat, Group(Spread(room))));
    DrainStep(style, pen, none, Entry(level, Mode.Break, Spread(room)));
    assert docs[1..] == [Raw(Filler(room - 1))] && docs[1..][1..] == [];
    var rest := Stacked(docs[1..], level, Mode.Break);
    assert none + Stacked(docs, level, Mode.Break) == rest + [Entry(level, Mode.Break, Line)];
    DrainStep(style, pen, rest, Entry(level, Mode.Break, Line));
    DrainExtends(style, Newline(pen), rest + []);
    var end := Drained(style, Newline(pen), rest + []);
    assert Newline(pen).output == end.output[..|pen.output| + 1];
    assert end.output[|pen.output|] == end.output[..|pen.output| + 1][|pen.output|];
  }

  lemma {:induction false} DeepFlat(style: Style, pen: Pen, n: nat, doc: Doc, indent: nat)
    ensures FlatPen(style, pen, Deep(n, doc), indent) == FlatPen(style, pen, doc, indent + n)
    decreases n
  {
    if n > 0 {
      DeepFlat(style, pen, n - 1, doc, indent + 1);
    }
  }

  lemma FlatSpread(style: Style, pen: Pen, level: nat, room: nat)
    requires room > 0
    ensures var flat := FlatPens(style, pen, Spread(room).docs, level);
            |flat.output| > |pen.output| && flat.output[|pen.output|] == ' '
  {
    hide Filler, RawColumn, IsSpace;
    var docs := Spread(room).docs;
    assert docs[1..] == [Raw(Filler(room - 1))] && docs[1..][1..] == [];
    var p1 := Space(pen);
    assert FlatPens(style, pen, docs, level) == FlatPens(style, p1, docs[1..], level);
    assert FlatPens(style, p1, docs[1..], level) == WriteRaw(p1, Filler(room - 1));
  }

  lemma FlatChoice(style: Style, pen: Pen, indent: nat, n: nat, room: nat)
    requires room > 0
    ensures var flat := FlatPen(style, pen, Deep(n, Group(Spread(room))), indent);
            |flat.output| > |pen.output| && flat.output[|pen.output|] == ' '
  {
    hide Deep, Filler, RawColumn, IsSpace;
    DeepFlat(style, pen, n, Group(Spread(room)), indent);
    FlatSpread(style, pen, indent + n, room);
  }

  // ---- A fill

  ghost predicate FillKeeps(style: Style, pen: Pen, indent: nat, n: nat, parts: seq<Doc>, stack: seq<Entry>) {
    !StackStart(style, RoomAt(style, indent), stack + [Entry(indent + n, Flat, Concat(parts))], pen.kind,
                pen.parent).Risky?
    ==> ChosenKeeps(style, pen, stack, indent, Deep(n, Fill(parts)))
  }

  /** The same for a line that starts with a fill, which is decided pair by pair. */
  lemma FillStartExact(style: Style, pen: Pen, indent: nat, n: nat)
    requires Quiet(style) && OnNewLine(pen)
    ensures SafeChoice(style, RoomAt(style, indent), indent + n) <==>
            forall parts, stack :: FillKeeps(style, pen, indent, n, parts, stack)
  {
    var room, level := RoomAt(style, indent), indent + n;
    hide Quiet, ChosenKeeps, Secure, Deep, Filler;
    if SafeChoice(style, room, level) {
      forall parts, stack ensures FillKeeps(style, pen, indent, n, parts, stack) {
        if !StackStart(style, room, stack + [Entry(level, Flat, Concat(parts))], pen.kind, pen.parent).Risky? {
          FillStarts(style, room, stack, indent, n, parts, pen.kind, pen.parent);
          SecureStart(style, pen, stack, indent, Deep(n, Fill(parts)));
          SecureKeeps(style, pen, stack, indent, Deep(n, Fill(parts)));
        }
      }
    } else {
      FillBreaks(style, pen, indent, n);
    }
  }

  lemma {:induction false} FillRuns(style: Style, room: nat, parts: seq<Doc>, level: nat, kind: string, parent: string)
    requires SafeChoice(style, room, level)
    ensures FillStart(style, room, parts, level, Flat, kind, parent)
            == DocsStart(style, room, parts, level, Flat, kind, parent)
    decreases |parts|
  {
    if |parts| >= 2 && !ForcedBreak(parts[0], Flat) {
      assert parts[1..][1..] == parts[2..];
      var sep := DocStart(style, room, parts[0], level, Flat, kind, parent);
      if sep.Open? {
        var content := DocStart(style, room, parts[1], level, Flat, sep.kind, sep.parent);
        if content.Open? {
          FillRuns(style, room, parts[2..], level, content.kind, content.parent);
        }
      }
    }
  }

  lemma FillStarts(
    style: Style, room: nat, stack: seq<Entry>, indent: nat, n: nat, parts: seq<Doc>, kind: string,
    parent: string)
    requires SafeChoice(style, room, indent + n)
    ensures StackStart(style, room, stack + [Entry(indent, Flat, Deep(n, Fill(parts)))], kind, parent)
            == StackStart(style, room, stack + [Entry(indent + n, Flat, Concat(parts))], kind, parent)
  {
    hide StackStart, Deep, FillStart, DocsStart;
    StartAdds(style, room, stack, [Entry(indent, Flat, Deep(n, Fill(parts)))], kind, parent);
    StartOne(style, room, Entry(indent, Flat, Deep(n, Fill(parts))), kind, parent);
    DeepStart(style, room, n, Fill(parts), indent, kind, parent);
    FillRuns(style, room, parts, indent + n, kind, parent);
    StartAdds(style, room, stack, [Entry(indent + n, Flat, Concat(parts))], kind, parent);
    StartOne(style, room, Entry(indent + n, Flat, Concat(parts)), kind, parent);
  }

  lemma FillBreaks(style: Style, pen: Pen, indent: nat, n: nat)
    requires Quiet(style) && OnNewLine(pen) && !SafeChoice(style, RoomAt(style, indent), indent + n)
    ensures !FillKeeps(style, pen, indent, n, Spread(RoomAt(style, indent)).docs, [])
  {
    hide Quiet, Deep, Drained, FitsGroup, Tidy, Joined, KeepsWithin, StackStart, FlatPen, Filler;
    var room, level := RoomAt(style, indent), indent + n;
    var parts := Spread(room).docs;
    var whole := Deep(n, Fill(parts));
    NoStack();
    FillFits(style, pen, indent, n);
    ChoiceSettles(style, room, level, pen.kind, pen.parent);
    ChosenStep(style, pen, [], indent, Flat, whole);
    DeepDrains(style, pen, [], n, Fill(parts), indent);
    BrokenFill(style, pen, level, room);
    FlatFill(style, pen, indent, n, room);
    var end := Drained(style, pen, [] + [Entry(level, Flat, Fill(parts))]);
    DrainNothing(style, FlatPen(style, pen, whole, indent));
    assert end.output[|pen.output|] == NEWLINE && FlatPen(style, pen, whole, indent).output[|pen.output|] == ' ';
  }

  lemma FillFits(style: Style, pen: Pen, indent: nat, n: nat)
    requires OnNewLine(pen) && RoomAt(style, indent) > 0
    ensures var whole := Deep(n, Fill(Spread(RoomAt(style, indent)).docs));
            Tidy(Group(whole)) && FitsGroup(style, pen, whole, indent, [])
  {
    hide Deep, Filler;
    var room := RoomAt(style, indent);
    var m := MeterAt(style, pen, indent);
    var parts := Spread(room).docs;
    SpreadFits(style, room, indent + n, m);
    FillerWidth(room - 1);
    assert parts[2..] == [] && Separated(parts);
    assert Tidy(parts[0]) && Tidy(parts[1]) && Joined(parts[0]) && Joined(parts[1]);
    assert Tidy(Fill(parts)) && Joined(Fill(parts));
    assert FitsInner(style, Fill(parts), indent + n, m) == FitsInner(style, Spread(room), indent + n, m);
    DeepFits(style, n, Fill(parts), indent, m);
  }

  lemma BrokenFill(style: Style, pen: Pen, level: nat, room: nat)
    requires OnNewLine(pen) && !SafeChoice(style, room, level)
    ensures var end := Drained(style, pen, [] + [Entry(level, Flat, Fill(Spread(room).docs))]);
            |end.output| > |pen.output| && end.output[|pen.output|] == NEWLINE
  {
    hide Drained, Filler, ByteLength, RawColumn, IsSpace;
    var docs := Spread(room).docs;
    var none: seq<Entry> := [];
    FillerWidth(room - 1);
    assert !FitsPair(style, pen, level, docs[0], docs[1]);
    var rest := [Entry(level, Flat, docs[1])];
    DrainStep(style, pen, none, Entry(level, Flat, Fill(docs)));
    DrainStep(style, pen, none, Entry(level, Flat, FillRest(docs)));
    assert none + FillEntries(style, pen, level, Flat, docs) == rest + [Entry(level, Mode.Break, Line)];
    DrainStep(style, pen, rest, Entry(level, Mode.Break, Line));
    DrainExtends(style, Newline(pen), rest + []);
    var end := Drained(style, Newline(pen), rest + []);
    assert Newline(pen).output == end.output[..|pen.output| + 1];
    assert end.output[|pen.output|] == end.output[..|pen.output| + 1][|pen.output|];
  }

  lemma FlatFill(style: Style, pen: Pen, indent: nat, n: nat, room: nat)
    requires room > 0
    ensures var flat := FlatPen(style, pen, Deep(n, Fill(Spread(room).docs)), indent);
            |flat.output| > |pen.output| && flat.output[|pen.output|] == ' '
  {
    hide Deep, Filler, RawColumn, IsSpace;
    var docs := Spread(room).docs;
    DeepFlat(style, pen, n, Fill(docs), indent);
    FlatSpread(style, pen, indent + n, room);
  }

  // ---- Verbatim lines

  /** A verbatim line start behind a group that writes nothing, at the start of a line. */
  ghost predicate LineStartKeeps(style: Style, pen: Pen, indent: nat, top: Entry, below: seq<Entry>) {
    ChosenKeeps(style, pen, below + [top], indent, Empty)
  }

  /** The indentation, and behind it the first line of what the rest of the stack writes there. */
  ghost predicate FitsBehind(style: Style, pen: Pen, indentation: string, below: seq<Entry>) {
    var after := StartLine(pen, indentation);
    var end := Drained(style, after, below);
    Extends(after, end) && |indentation| + FirstLine(Added(after, end)) <= style.maxLength
  }

  /**
    At the start of a line it ends nothing, though it was measured as the end: it is chosen, and the
    rest follows it.
    */
  lemma LineStartChosen(style: Style, pen: Pen, indent: nat, top: Entry, below: seq<Entry>)
    requires OnNewLine(pen) && top.doc.LineStart?
    ensures FitsGroup(style, pen, Empty, indent, below + [top])
    ensures Drained(style, pen, below + [top] + [Entry(indent, Flat, Group(Empty))])
            == Drained(style, StartLine(pen, top.doc.indentation), below)
    ensures WrittenFlat(style, pen, below + [top], indent, Flat, Empty)
  {
    hide Drained, ByteLength;
    var stack := below + [top];
    assert stack[|stack| - 1] == top && stack[..|stack| - 1] == below;
    assert FitsGroup(style, pen, Empty, indent, stack);
    ChosenStep(style, pen, stack, indent, Flat, Empty);
    DrainStep(style, pen, stack, Entry(indent, Flat, Empty));
    NoMore(stack);
    DrainStep(style, pen, below, top);
    NoMore(below);
  }

  lemma IndentationAdded(pen: Pen, indentation: string)
    requires OnNewLine(pen)
    ensures Extends(pen, StartLine(pen, indentation)) && Added(pen, StartLine(pen, indentation)) == indentation
  {
    var after := StartLine(pen, indentation);
    assert after.output == pen.output + indentation;
    assert after.output[..|pen.output|] == pen.output && after.output[|pen.output|..] == indentation;
  }

  /** The line is kept if and only if the indentation leaves room for the first line of what follows. */
  lemma LineStartExact(style: Style, pen: Pen, indent: nat, top: Entry, below: seq<Entry>)
    requires OnNewLine(pen) && TidyStack(below) && top.doc.LineStart? && Tidy(top.doc)
    ensures LineStartKeeps(style, pen, indent, top, below) <==> FitsBehind(style, pen, top.doc.indentation, below)
  {
    hide Drained, FirstLine, LineWidth, FitsGroup, WrittenFlat, StartLine, Tidy;
    var ind := top.doc.indentation;
    var after := StartLine(pen, ind);
    var end := Drained(style, after, below);
    LineStartChosen(style, pen, indent, top, below);
    IndentationAdded(pen, ind);
    DrainExtends(style, after, below);
    ExtendsTwice(pen, after, end);
    NewLineWidth(pen);
    OneLineTidy(top.doc);
    FirstLineAdds(ind, Added(after, end));
    EmptyTidy();
  }

  lemma OneLineTidy(doc: Doc)
    requires doc.LineStart? && Tidy(doc)
    ensures OneLine(doc.indentation)
  {}

  lemma EmptyTidy()
    ensures Tidy(Group(Empty))
  {}

  /** It is kept where an empty group behind the indentation would be chosen, with a measure that can be trusted. */
  lemma LineStartMeasured(style: Style, pen: Pen, indent: nat, top: Entry, below: seq<Entry>)
    requires Quiet(style) && OnNewLine(pen) && TidyStack(below) && top.doc.LineStart? && Tidy(top.doc)
    requires var after := StartLine(pen, top.doc.indentation);
             FitsGroup(style, after, Empty, indent, below) && Secure(style, after, below, indent, Empty)
    ensures LineStartKeeps(style, pen, indent, top, below)
  {
    hide Quiet, Drained, FirstLine, LineWidth, FitsGroup, Tidy, ByteLength, TidyStack, Secure, Grounded;
    var ind := top.doc.indentation;
    var after := StartLine(pen, ind);
    OneLineTidy(top.doc);
    EmptyTidy();
    LineStartCounted(pen, ind);
    WriteGrounded(style, pen, top);
    ChosenFlatKeepsWithin(style, after, below, indent, Flat, Empty);
    ChosenStep(style, after, below, indent, Flat, Empty);
    DrainStep(style, after, below, Entry(indent, Flat, Empty));
    NoMore(below);
    NewLineWidth(pen);
    LineWidthAdds(pen.output, ind);
    LineStartExact(style, pen, indent, top, below);
  }

  /** No indentation is safe whatever follows. */
  lemma LineStartOverflows(style: Style, pen: Pen, indent: nat, top: Entry)
    requires OnNewLine(pen) && top.doc.LineStart? && Tidy(top.doc)
    ensures !LineStartKeeps(style, pen, indent, top, [Entry(0, Flat, Raw(Filler(style.maxLength + 1)))])
  {
    hide Drained, FirstLine, LineWidth, Filler, ByteLength, RawColumn, IsSpace, LineStartKeeps, StartLine;
    var long := Filler(style.maxLength + 1);
    var raw := Entry(0, Flat, Raw(long));
    var none: seq<Entry> := [];
    FillerWidth(style.maxLength + 1);
    LineStartExact(style, pen, indent, top, [raw]);
    var after := StartLine(pen, top.doc.indentation);
    DrainStep(style, after, none, raw);
    One(raw);
    NoMore(none);
    var end := PenAfter(style, after, raw);
    DrainNothing(style, end);
    assert end.output == after.output + long;
    assert end.output[|after.output|..] == long;
    FirstLineAdds(long, "");
    assert long + "" == long;
    NothingFirst();
  }
}
