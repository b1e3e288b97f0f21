/** The nested IF tree of a source without includes, its meaning, and the machine's agreement with it. */
module IfTrees {
  import opened PascalSyntax
  import opened ByteText
  import opened ConditionExpressions
  import opened SourceMaps
  import opened Preprocessor
  import opened PreprocessorLaws
  import opened PreparationRuns

  // ---- Trees

  datatype Node = Leaf(item: Item) | Group(first: Item, body: seq<Node>, rest: Rest)

  datatype Rest =
    | Closed(end: Item)
    | Otherwise(branch: Item, body: seq<Node>, end: Item)
    | Further(branch: Item, body: seq<Node>, rest: Rest)

  /** A directive that can be read. */
  predicate Reads(item: Item) {
    item.Directive? && item.reading.command.Done?
  }

  predicate IsIf(item: Item) {
    Reads(item) && item.reading.command.value.If?
  }

  predicate IsElseIf(item: Item) {
    Reads(item) && item.reading.command.value.ElseIf?
  }

  predicate IsElse(item: Item) {
    Reads(item) && item.reading.command.value.Else?
  }

  predicate IsEndIf(item: Item) {
    Reads(item) && item.reading.command.value.EndIf?
  }

  /** Plain text, a directive that cannot be read, or one that neither includes nor groups. */
  predicate IsLeaf(item: Item) {
    Reads(item) ==> var c := item.reading.command.value; c.Define? || c.Undef? || c.Unsupported?
  }

  /** The branches of a group are introduced and ended by the right directives. */
  predicate Grown(nodes: seq<Node>) {
    forall i :: 0 <= i < |nodes| ==> GrownNode(nodes[i])
  }

  predicate GrownNode(node: Node) {
    match node
    case Leaf(item) => IsLeaf(item)
    case Group(first, body, rest) =>
      IsIf(first) && (forall i :: 0 <= i < |body| ==> GrownNode(body[i])) && GrownRest(rest)
  }

  predicate GrownRest(rest: Rest) {
    match rest
    case Closed(end) => IsEndIf(end)
    case Otherwise(branch, body, end) =>
      IsElse(branch) && (forall i :: 0 <= i < |body| ==> GrownNode(body[i])) && IsEndIf(end)
    case Further(branch, body, rest) =>
      IsElseIf(branch) && (forall i :: 0 <= i < |body| ==> GrownNode(body[i])) && GrownRest(rest)
  }

  /** The items of a tree in order. */
  function Flat(nodes: seq<Node>): seq<Item>
    decreases nodes
  {
    if nodes == [] then [] else FlatNode(nodes[0]) + Flat(nodes[1..])
  }

  function FlatNode(node: Node): seq<Item>
    decreases node
  {
    match node
    case Leaf(item) => [item]
    case Group(first, body, rest) => [first] + (Flat(body) + FlatRest(rest))
  }

  function FlatRest(rest: Rest): seq<Item>
    decreases rest
  {
    match rest
    case Closed(end) => [end]
    case Otherwise(branch, body, end) => [branch] + (Flat(body) + [end])
    case Further(branch, body, rest) => [branch] + (Flat(body) + FlatRest(rest))
  }

  // ---- Meaning

  /** What is left of a tree: the symbols behind it and how each piece appears. */
  datatype Meaning = Meaning(symbols: Symbols, pieces: seq<(Range, Kind)>)

  function Blank(item: Item): (Range, Kind) {
    (item.range, Masked)
  }

  /** The first meaning followed by what comes after it. */
  function Before(pieces: seq<(Range, Kind)>, m: Outcome<Meaning>): Outcome<Meaning> {
    if m.Fail? then m else Done(m.value.(pieces := pieces + m.value.pieces))
  }

  function MeaningOf(nodes: seq<Node>, symbols: Symbols, live: bool): Outcome<Meaning>
    requires Grown(nodes)
    decreases nodes
  {
    if nodes == [] then Done(Meaning(symbols, []))
    else
      var first := NodeMeaning(nodes[0], symbols, live);
      if first.Fail? then first
      else Before(first.value.pieces, MeaningOf(nodes[1..], first.value.symbols, live))
  }

  function LeafMeaning(item: Item, symbols: Symbols, live: bool): Outcome<Meaning>
    requires IsLeaf(item)
  {
    match item
    case Plain(range) => Done(Meaning(symbols, [(range, if live then Copied else Masked)]))
    case Directive(range, reading) =>
      if reading.command.Fail? then Fail(reading.command.fault)
      else
        match reading.command.value
        case Define(name) => Done(Meaning(if live then symbols.Set(name, true) else symbols, [(range, Masked)]))
        case Undef(name) => Done(Meaning(if live then symbols.Set(name, false) else symbols, [(range, Masked)]))
        case _ => if live then Fail(UnsupportedDirective) else Done(Meaning(symbols, [(range, Masked)]))
  }

  /** A group is its first branch when the condition holds, and otherwise what the rest of it is. */
  function NodeMeaning(node: Node, symbols: Symbols, live: bool): Outcome<Meaning>
    requires GrownNode(node)
    decreases node
  {
    match node
    case Leaf(item) => LeafMeaning(item, symbols, live)
    case Group(first, body, rest) =>
      var holds := Decide(first.reading.command.value.condition, symbols, live);
      if holds.Fail? then Fail(holds.fault)
      else
        var inner := MeaningOf(body, symbols, holds.value);
        if inner.Fail? then inner
        else Before([Blank(first)],
                    Before(inner.value.pieces, RestMeaning(rest, inner.value.symbols, live && !holds.value)))
  }

  /** `open`: the group is live and none of its branches has been chosen. */
  function RestMeaning(rest: Rest, symbols: Symbols, open: bool): Outcome<Meaning>
    requires GrownRest(rest)
    decreases rest
  {
    match rest
    case Closed(end) => Done(Meaning(symbols, [Blank(end)]))
    case Otherwise(branch, body, end) =>
      var inner := MeaningOf(body, symbols, open);
      if inner.Fail? then inner
      else Before([Blank(branch)], Before(inner.value.pieces, Done(Meaning(inner.value.symbols, [Blank(end)]))))
    case Further(branch, body, rest) =>
      var holds := Decide(branch.reading.command.value.condition, symbols, open);
      if holds.Fail? then Fail(holds.fault)
      else
        var inner := MeaningOf(body, symbols, holds.value);
        if inner.Fail? then inner
        else Before([Blank(branch)],
                    Before(inner.value.pieces, RestMeaning(rest, inner.value.symbols, open && !holds.value)))
  }

  // ---- What is written

  datatype Page = Page(output: Bytes, segments: seq<Segment>, content: bool)

  function PageOf(m: Machine): Page {
    Page(m.output, m.segments, m.activeContent)
  }

  function Write(page: Page, frame: Frame, source: Bytes, piece: (Range, Kind)): Page
    requires piece.0.Within(|source|)
  {
    var bytes := if piece.1.Copied? then Slice(source, piece.0) else Mask(Slice(source, piece.0));
    Page(page.output + bytes,
         page.segments + [Segment(Range(|page.output|, |page.output| + |bytes|), Some(Span(frame.source, piece.0)),
                                  frame.expansion, piece.1)],
         page.content || (piece.1.Copied? && HasContent(Slice(source, piece.0))))
  }

  ghost predicate PiecesOk(source: Bytes, pieces: seq<(Range, Kind)>) {
    forall i :: 0 <= i < |pieces| ==> pieces[i].0.Within(|source|)
  }

  function WriteAll(page: Page, frame: Frame, source: Bytes, pieces: seq<(Range, Kind)>): Page
    requires PiecesOk(source, pieces)
    decreases |pieces|
  {
    if pieces == [] then page
    else Write(WriteAll(page, frame, source, pieces[..|pieces| - 1]), frame, source, pieces[|pieces| - 1])
  }

  lemma {:induction false} WriteMore(
    page: Page, frame: Frame, source: Bytes, a: seq<(Range, Kind)>, b: seq<(Range, Kind)>)
    requires PiecesOk(source, a) && PiecesOk(source, b)
    ensures PiecesOk(source, a + b)
    ensures WriteAll(page, frame, source, a + b) == WriteAll(WriteAll(page, frame, source, a), frame, source, b)
    decreases |b|
  {
    hide Write;
    if b == [] {
      assert a + b == a;
    } else {
      var n := |b| - 1;
      WriteMore(page, frame, source, a, b[..n]);
      assert (a + b)[..|a + b| - 1] == a + b[..n];
    }
  }

  // ---- The machine on a stretch of items

  predicate ItemIn(p: Project, frame: Frame, item: Item) {
    frame.source in p.texts && item.range.Within(|p.texts[frame.source].bytes|)
  }

  function Consume(p: Project, m: Machine, frame: Frame, item: Item): Outcome<Machine>
    requires ItemIn(p, frame, item)
  {
    match item
    case Plain(range) => OnText(p, m, frame, range)
    case Directive(range, reading) => OnDirective(p, m, frame, range, reading)
  }

  ghost predicate ItemsIn(p: Project, frame: Frame, items: seq<Item>) {
    frame.source in p.texts && forall i :: 0 <= i < |items| ==> ItemIn(p, frame, items[i])
  }

  function ConsumeAll(p: Project, m: Machine, frame: Frame, items: seq<Item>): Outcome<Machine>
    requires ItemsIn(p, frame, items)
    decreases |items|
  {
    if items == [] then Done(m)
    else
      var next := Consume(p, m, frame, items[0]);
      if next.Fail? then next else ConsumeAll(p, next.value, frame, items[1..])
  }

  lemma {:induction false} ConsumeMore(p: Project, m: Machine, frame: Frame, a: seq<Item>, b: seq<Item>)
    requires ItemsIn(p, frame, a + b)
    ensures ItemsIn(p, frame, a) && ItemsIn(p, frame, b)
    ensures ConsumeAll(p, m, frame, a + b)
            == var first := ConsumeAll(p, m, frame, a);
               if first.Fail? then first else ConsumeAll(p, first.value, frame, b)
    decreases |a|
  {
    hide Consume;
    ItemsApart(p, frame, a, b);
    if a == [] {
      assert a + b == b;
    } else {
      assert (a + b)[0] == a[0] && (a + b)[1..] == a[1..] + b;
      ItemsApart(p, frame, [a[0]], a[1..] + b);
      assert [a[0]] + (a[1..] + b) == a + b;
      var next := Consume(p, m, frame, a[0]);
      if next.Done? {
        ConsumeMore(p, next.value, frame, a[1..], b);
      }
    }
  }

  lemma ItemsApart(p: Project, frame: Frame, a: seq<Item>, b: seq<Item>)
    requires ItemsIn(p, frame, a + b)
    ensures ItemsIn(p, frame, a) && ItemsIn(p, frame, b)
  {
    forall i | 0 <= i < |a| ensures ItemIn(p, frame, a[i]) {
      assert (a + b)[i] == a[i];
    }
    forall i | 0 <= i < |b| ensures ItemIn(p, frame, b[i]) {
      assert (a + b)[|a| + i] == b[i];
    }
  }

  /** `m1` is `m` with the pieces written, other symbols and other groups. */
  ghost predicate Leads(
    m: Machine, m1: Machine, frame: Frame, source: Bytes, pieces: seq<(Range, Kind)>, symbols: Symbols,
    groups: seq<Conditional>)
  {
    && PiecesOk(source, pieces)
    && PageOf(m1) == WriteAll(PageOf(m), frame, source, pieces)
    && m1.symbols == symbols && m1.conditionals == groups
    && m1.frames == m.frames && m1.chain == m.chain && m1.occurrences == m.occurrences && m1.owners == m.owners
    && m1.lexed == m.lexed
  }

  /** The machine and the meaning agree, unless a budget stops the machine. */
  ghost predicate Agrees(
    m: Machine, out: Outcome<Machine>, frame: Frame, source: Bytes, means: Outcome<Meaning>,
    groups: seq<Conditional>)
  {
    match out
    case Done(m1) => means.Done? && Leads(m, m1, frame, source, means.value.pieces, means.value.symbols, groups)
    case Fail(fault) => fault.BudgetExceeded? || means == Fail(fault)
  }

  lemma LeadsOn(m: Machine, m1: Machine, m2: Machine, frame: Frame, source: Bytes,
                a: seq<(Range, Kind)>, b: seq<(Range, Kind)>, s: Symbols, t: Symbols, g: seq<Conditional>,
                h: seq<Conditional>)
    requires Leads(m, m1, frame, source, a, s, g) && Leads(m1, m2, frame, source, b, t, h)
    ensures Leads(m, m2, frame, source, a + b, t, h)
  {
    hide WriteAll;
    WriteMore(PageOf(m), frame, source, a, b);
  }

  lemma LeadsOne(m: Machine, m1: Machine, frame: Frame, source: Bytes, piece: (Range, Kind))
    requires piece.0.Within(|source|) && PageOf(m1) == Write(PageOf(m), frame, source, piece)
    requires m1.frames == m.frames && m1.chain == m.chain && m1.occurrences == m.occurrences
    requires m1.owners == m.owners && m1.lexed == m.lexed
    ensures Leads(m, m1, frame, source, [piece], m1.symbols, m1.conditionals)
  {
    assert [piece][..0] == [];
    assert WriteAll(PageOf(m), frame, source, [piece][..0]) == PageOf(m);
    assert WriteAll(PageOf(m), frame, source, [piece]) == Write(PageOf(m), frame, source, piece);
  }

  // ---- Single items

  lemma SpendFails(u: Usage, limits: Limits, budget: Budget, amount: nat)
    ensures Spend(u, limits, budget, amount).Fail? ==> Spend(u, limits, budget, amount).fault.BudgetExceeded?
  {}

  lemma {:induction false} SpendAllFails(u: Usage, limits: Limits, charges: seq<(Budget, nat)>)
    ensures SpendAll(u, limits, charges).Fail? ==> SpendAll(u, limits, charges).fault.BudgetExceeded?
    decreases |charges|
  {
    if charges != [] {
      SpendFails(u, limits, charges[0].0, charges[0].1);
      var first := Spend(u, limits, charges[0].0, charges[0].1);
      if first.Done? {
        SpendAllFails(first.value, limits, charges[1..]);
      }
    }
  }

  lemma TextAgreesWith(p: Project, m: Machine, frame: Frame, item: Item)
    requires ItemIn(p, frame, item) && item.Plain?
    ensures Agrees(m, Consume(p, m, frame, item), frame, p.texts[frame.source].bytes,
                   LeafMeaning(item, m.symbols, Active(m.conditionals)), m.conditionals)
  {
    hide HasContent, WriteAll;
    var source := p.texts[frame.source].bytes;
    SpendFails(m.usage, p.limits, Work, item.range.Length());
    var out := Consume(p, m, frame, item);
    if out.Done? {
      LeadsOne(m, out.value, frame, source, (item.range, if Active(m.conditionals) then Copied else Masked));
    }
  }

  /** A directive: charges, then its effect, then blanks. */
  lemma DirectiveDoes(p: Project, m: Machine, frame: Frame, item: Item)
    requires ItemIn(p, frame, item) && Reads(item) && !item.reading.command.value.Include?
    ensures var out := Consume(p, m, frame, item);
            var effect := Effect(p, m, item.reading.command.value);
            if out.Fail? then out.fault.BudgetExceeded? || effect == Fail(out.fault)
            else
              && effect.Done?
              && Leads(m, out.value, frame, p.texts[frame.source].bytes, [Blank(item)], effect.value.symbols,
                       effect.value.conditionals)
  {
    hide Effect, SpendAll, WriteAll;
    var source := p.texts[frame.source].bytes;
    var charges := [(DirectiveCount, 1), (Work, item.range.Length() as nat)] + item.reading.charges;
    SpendAllFails(m.usage, p.limits, charges);
    var usage := SpendAll(m.usage, p.limits, charges);
    if usage.Done? {
      var command := item.reading.command.value;
      EffectIgnoresUsage(p, m, usage.value, command);
      var out := Consume(p, m, frame, item);
      if out.Done? {
        LeadsOne(m, out.value, frame, source, Blank(item));
      }
    }
  }

  lemma EffectIgnoresUsage(p: Project, m: Machine, usage: Usage, command: Command)
    ensures Effect(p, m.(usage := usage), command)
            == var e := Effect(p, m, command); if e.Fail? then e else Done(e.value.(usage := usage))
    ensures Effect(p, m, command).Done? ==> var e := Effect(p, m, command).value;
            e == m.(symbols := e.symbols, conditionals := e.conditionals)
  {
    hide Decide, SetTop;
  }

  lemma LeafAgrees(p: Project, m: Machine, frame: Frame, item: Item)
    requires ItemIn(p, frame, item) && IsLeaf(item)
    ensures Agrees(m, Consume(p, m, frame, item), frame, p.texts[frame.source].bytes,
                   LeafMeaning(item, m.symbols, Active(m.conditionals)), m.conditionals)
  {
    hide Consume, Leads;
    if item.Plain? {
      TextAgreesWith(p, m, frame, item);
    } else if Reads(item) {
      DirectiveDoes(p, m, frame, item);
    } else {
      Unreadable(p, m, frame, item);
    }
  }

  lemma Unreadable(p: Project, m: Machine, frame: Frame, item: Item)
    requires ItemIn(p, frame, item) && item.Directive? && item.reading.command.Fail?
    ensures var out := Consume(p, m, frame, item);
            out.Fail? && (out.fault.BudgetExceeded? || out.fault == item.reading.command.fault)
  {
    hide SpendAll;
    SpendAllFails(m.usage, p.limits, [(DirectiveCount, 1), (Work, item.range.Length() as nat)] + item.reading.charges);
  }

  // ---- Whole trees

  /** One meaning after another. */
  function Combined(a: Outcome<Meaning>, b: Outcome<Meaning>): Outcome<Meaning> {
    if a.Fail? then a else Before(a.value.pieces, b)
  }

  lemma AgreesThen(m: Machine, out: Outcome<Machine>, next: Outcome<Machine>, frame: Frame, source: Bytes,
                   a: Outcome<Meaning>, b: Outcome<Meaning>, g: seq<Conditional>, h: seq<Conditional>)
    requires Agrees(m, out, frame, source, a, g) && (out.Done? ==> Agrees(out.value, next, frame, source, b, h))
    ensures Agrees(m, if out.Fail? then out else next, frame, source, Combined(a, b), h)
  {
    hide Leads;
    if out.Done? && next.Done? {
      LeadsOn(m, out.value, next.value, frame, source, a.value.pieces, b.value.pieces, a.value.symbols,
              b.value.symbols, g, h);
    }
  }

  lemma ConsumeOne(p: Project, m: Machine, frame: Frame, item: Item)
    requires ItemsIn(p, frame, [item])
    ensures ItemIn(p, frame, item) && ConsumeAll(p, m, frame, [item]) == Consume(p, m, frame, item)
  {
    hide Consume;
    assert [item][0] == item && [item][1..] == [];
  }

  /** What opens a group or one of its branches. */
  function Head(item: Item, symbols: Symbols, holds: Outcome<bool>): Outcome<Meaning> {
    if holds.Fail? then Fail(holds.fault) else Done(Meaning(symbols, [Blank(item)]))
  }

  lemma IfHead(p: Project, m: Machine, frame: Frame, item: Item)
    requires ItemIn(p, frame, item) && IsIf(item)
    ensures var holds := Decide(item.reading.command.value.condition, m.symbols, Active(m.conditionals));
            Agrees(m, Consume(p, m, frame, item), frame, p.texts[frame.source].bytes, Head(item, m.symbols, holds),
                   m.conditionals + [Opened(Active(m.conditionals), holds.Done? && holds.value)])
  {
    hide Consume, Leads, Decide;
    DirectiveDoes(p, m, frame, item);
  }

  lemma ElseIfHead(p: Project, m: Machine, frame: Frame, item: Item, base: seq<Conditional>, c: Conditional)
    requires ItemIn(p, frame, item) && IsElseIf(item) && m.conditionals == base + [c] && !c.sawElse
    ensures var holds := Decide(item.reading.command.value.condition, m.symbols, c.parentActive && !c.branchTaken);
            Agrees(m, Consume(p, m, frame, item), frame, p.texts[frame.source].bytes, Head(item, m.symbols, holds),
                   base + [NextBranch(c, holds.Done? && holds.value)])
  {
    hide Consume, Leads, Decide;
    DirectiveDoes(p, m, frame, item);
    assert m.conditionals[..|m.conditionals| - 1] == base;
  }

  lemma ElseHead(p: Project, m: Machine, frame: Frame, item: Item, base: seq<Conditional>, c: Conditional)
    requires ItemIn(p, frame, item) && IsElse(item) && m.conditionals == base + [c] && !c.sawElse
    ensures Agrees(m, Consume(p, m, frame, item), frame, p.texts[frame.source].bytes,
                   Head(item, m.symbols, Done(true)), base + [LastBranch(c)])
  {
    hide Consume, Leads;
    DirectiveDoes(p, m, frame, item);
    assert m.conditionals[..|m.conditionals| - 1] == base;
  }

  lemma EndIfHead(p: Project, m: Machine, frame: Frame, item: Item, base: seq<Conditional>, c: Conditional)
    requires ItemIn(p, frame, item) && IsEndIf(item) && m.conditionals == base + [c]
    ensures Agrees(m, Consume(p, m, frame, item), frame, p.texts[frame.source].bytes,
                   Head(item, m.symbols, Done(true)), base)
  {
    hide Consume, Leads;
    DirectiveDoes(p, m, frame, item);
    assert m.conditionals[..|m.conditionals| - 1] == base;
  }

  lemma {:induction false} NodesAgree(p: Project, m: Machine, frame: Frame, nodes: seq<Node>)
    requires Grown(nodes) && ItemsIn(p, frame, Flat(nodes))
    ensures Agrees(m, ConsumeAll(p, m, frame, Flat(nodes)), frame, p.texts[frame.source].bytes,
                   MeaningOf(nodes, m.symbols, Active(m.conditionals)), m.conditionals)
    decreases |Flat(nodes)|, 1
  {
    hide Leads, ConsumeAll, FlatNode, NodeMeaning, Active, GrownNode;
    var source := p.texts[frame.source].bytes;
    if nodes == [] {
      Stays(p, m, frame, source);
    } else {
      var live := Active(m.conditionals);
      SomeItems(nodes[0]);
      ConsumeMore(p, m, frame, FlatNode(nodes[0]), Flat(nodes[1..]));
      NodeAgrees(p, m, frame, nodes[0]);
      var first := ConsumeAll(p, m, frame, FlatNode(nodes[0]));
      var a := NodeMeaning(nodes[0], m.symbols, live);
      if first.Done? {
        SymbolsOf(m, first.value, frame, source, a.value.pieces, a.value.symbols, m.conditionals);
        NodesAgree(p, first.value, frame, nodes[1..]);
        AgreesThen(m, first, ConsumeAll(p, first.value, frame, Flat(nodes[1..])), frame, source,
                   a, MeaningOf(nodes[1..], a.value.symbols, live), m.conditionals, m.conditionals);
      }
    }
  }

  lemma Stays(p: Project, m: Machine, frame: Frame, source: Bytes)
    requires ItemsIn(p, frame, [])
    ensures ConsumeAll(p, m, frame, []) == Done(m) && Leads(m, m, frame, source, [], m.symbols, m.conditionals)
  {}

  lemma SymbolsOf(
    m: Machine, m1: Machine, frame: Frame, source: Bytes, pieces: seq<(Range, Kind)>, symbols: Symbols,
    groups: seq<Conditional>)
    requires Leads(m, m1, frame, source, pieces, symbols, groups)
    ensures m1.symbols == symbols && m1.conditionals == groups
  {}

  /** Two stretches that agree one after the other agree together. */
  lemma StretchesAgree(p: Project, m: Machine, frame: Frame, a: seq<Item>, b: seq<Item>,
                       am: Outcome<Meaning>, bm: Outcome<Meaning>, g: seq<Conditional>, h: seq<Conditional>)
    requires ItemsIn(p, frame, a) && ItemsIn(p, frame, b) && ItemsIn(p, frame, a + b)
    requires Agrees(m, ConsumeAll(p, m, frame, a), frame, p.texts[frame.source].bytes, am, g)
    requires ConsumeAll(p, m, frame, a).Done? ==>
               var m1 := ConsumeAll(p, m, frame, a).value;
               Agrees(m1, ConsumeAll(p, m1, frame, b), frame, p.texts[frame.source].bytes, bm, h)
    ensures Agrees(m, ConsumeAll(p, m, frame, a + b), frame, p.texts[frame.source].bytes, Combined(am, bm), h)
  {
    hide Agrees, ConsumeAll;
    ConsumeMore(p, m, frame, a, b);
    var first := ConsumeAll(p, m, frame, a);
    var next := if first.Fail? then first else ConsumeAll(p, first.value, frame, b);
    AgreesThen(m, first, next, frame, p.texts[frame.source].bytes, am, bm, g, h);
  }

  lemma SomeItems(node: Node)
    ensures FlatNode(node) != []
  {}

  lemma SomeRest(rest: Rest)
    ensures FlatRest(rest) != []
  {}

  lemma {:induction false} NodeAgrees(p: Project, m: Machine, frame: Frame, node: Node)
    requires GrownNode(node) && ItemsIn(p, frame, FlatNode(node))
    ensures Agrees(m, ConsumeAll(p, m, frame, FlatNode(node)), frame, p.texts[frame.source].bytes,
                   NodeMeaning(node, m.symbols, Active(m.conditionals)), m.conditionals)
    decreases |FlatNode(node)|, 0
  {
    hide Agrees, ConsumeAll, Consume, Decide, LeafMeaning, IsLeaf, Flat, FlatRest, MeaningOf, RestMeaning;
    match node
    case Leaf(item) =>
      ConsumeOne(p, m, frame, item);
      LeafAgrees(p, m, frame, item);
    case Group(first, body, rest) =>
      var holds := Decide(first.reading.command.value.condition, m.symbols, Active(m.conditionals));
      ItemsApart(p, frame, [first], Flat(body) + FlatRest(rest));
      ConsumeOne(p, m, frame, first);
      IfHead(p, m, frame, first);
      HeadAndBranch(p, m, frame, first, body, rest, holds, m.conditionals,
                    Opened(Active(m.conditionals), holds.Done? && holds.value));
  }

  /** A branch and what follows it in its group. */
  function BranchMeaning(body: seq<Node>, rest: Rest, symbols: Symbols, c: Conditional): Outcome<Meaning>
    requires Grown(body) && GrownRest(rest)
  {
    var inner := MeaningOf(body, symbols, c.currentActive);
    if inner.Fail? then inner
    else Before(inner.value.pieces, RestMeaning(rest, inner.value.symbols, c.parentActive && !c.branchTaken))
  }

  /** The directive that starts a branch, the branch, and the rest of the group. */
  lemma {:induction false} HeadAndBranch(p: Project, m: Machine, frame: Frame, item: Item, body: seq<Node>, rest: Rest,
                                         holds: Outcome<bool>, base: seq<Conditional>, c: Conditional)
    requires Grown(body) && GrownRest(rest) && ItemsIn(p, frame, [item] + (Flat(body) + FlatRest(rest)))
    requires ItemsIn(p, frame, [item])
    requires rest.Closed? || !c.sawElse
    requires Agrees(m, ConsumeAll(p, m, frame, [item]), frame, p.texts[frame.source].bytes,
                    Head(item, m.symbols, holds), base + [c])
    ensures Agrees(m, ConsumeAll(p, m, frame, [item] + (Flat(body) + FlatRest(rest))), frame,
                   p.texts[frame.source].bytes,
                   Combined(Head(item, m.symbols, holds), BranchMeaning(body, rest, m.symbols, c)), base)
    decreases |Flat(body)| + |FlatRest(rest)|, 4
  {
    hide Leads, ConsumeAll, BranchMeaning, Flat, FlatRest, GrownRest;
    var head := ConsumeAll(p, m, frame, [item]);
    ItemsApart(p, frame, [item], Flat(body) + FlatRest(rest));
    if head.Done? {
      SymbolsOf(m, head.value, frame, p.texts[frame.source].bytes, [Blank(item)], m.symbols, base + [c]);
      BranchAgrees(p, head.value, frame, body, rest, base, c);
    }
    StretchesAgree(p, m, frame, [item], Flat(body) + FlatRest(rest),
                   Head(item, m.symbols, holds), BranchMeaning(body, rest, m.symbols, c), base + [c], base);
  }

  lemma {:induction false} BranchAgrees(
    p: Project, m: Machine, frame: Frame, body: seq<Node>, rest: Rest, base: seq<Conditional>, c: Conditional)
    requires Grown(body) && GrownRest(rest) && m.conditionals == base + [c] && (rest.Closed? || !c.sawElse)
    requires ItemsIn(p, frame, Flat(body) + FlatRest(rest))
    ensures Agrees(m, ConsumeAll(p, m, frame, Flat(body) + FlatRest(rest)), frame, p.texts[frame.source].bytes,
                   BranchMeaning(body, rest, m.symbols, c), base)
    decreases |Flat(body)| + |FlatRest(rest)|, 3
  {
    hide ConsumeAll, MeaningOf, RestMeaning, Flat, FlatRest, GrownRest, Leads;
    SomeRest(rest);
    ConsumeMore(p, m, frame, Flat(body), FlatRest(rest));
    NodesAgree(p, m, frame, body);
    var inner := ConsumeAll(p, m, frame, Flat(body));
    var im := MeaningOf(body, m.symbols, c.currentActive);
    if inner.Done? {
      SymbolsOf(m, inner.value, frame, p.texts[frame.source].bytes, im.value.pieces, im.value.symbols, base + [c]);
      RestAgrees(p, inner.value, frame, rest, base, c);
      StretchesAgree(p, m, frame, Flat(body), FlatRest(rest), im,
                     RestMeaning(rest, im.value.symbols, c.parentActive && !c.branchTaken), base + [c], base);
    }
  }

  lemma {:induction false} RestAgrees(
    p: Project, m: Machine, frame: Frame, rest: Rest, base: seq<Conditional>, c: Conditional)
    requires GrownRest(rest) && ItemsIn(p, frame, FlatRest(rest)) && m.conditionals == base + [c]
    requires (rest.Closed? || !c.sawElse)
    ensures Agrees(m, ConsumeAll(p, m, frame, FlatRest(rest)), frame, p.texts[frame.source].bytes,
                   RestMeaning(rest, m.symbols, c.parentActive && !c.branchTaken), base)
    decreases |FlatRest(rest)|, 2
  {
    hide Agrees, ConsumeAll, Consume, Decide, Flat, MeaningOf;
    match rest
    case Closed(end) =>
      ConsumeOne(p, m, frame, end);
      EndIfHead(p, m, frame, end, base, c);
    case Otherwise(branch, body, end) =>
      ItemsApart(p, frame, [branch], Flat(body) + [end]);
      ConsumeOne(p, m, frame, branch);
      ElseHead(p, m, frame, branch, base, c);
      HeadAndBranch(p, m, frame, branch, body, Closed(end), Done(true), base, LastBranch(c));
    case Further(branch, body, tail) =>
      var holds := Decide(branch.reading.command.value.condition, m.symbols, c.parentActive && !c.branchTaken);
      ItemsApart(p, frame, [branch], Flat(body) + FlatRest(tail));
      ConsumeOne(p, m, frame, branch);
      ElseIfHead(p, m, frame, branch, base, c);
      HeadAndBranch(p, m, frame, branch, body, tail, holds, base, NextBranch(c, holds.Done? && holds.value));
  }

  // ---- Whole runs

  predicate IncludeFree(item: Item) {
    Reads(item) ==> !item.reading.command.value.Include?
  }

  function Lift(out: Outcome<Machine>, frames: seq<Frame>): Outcome<Machine> {
    if out.Fail? then out else Done(out.value.(frames := frames))
  }

  /** Apart from includes, an item sees the open frames only through the source and expansion it belongs to. */
  lemma ConsumeFrames(p: Project, m: Machine, frame: Frame, frame': Frame, item: Item, frames: seq<Frame>)
    requires ItemIn(p, frame, item) && IncludeFree(item) && frame'.source == frame.source
    requires frame'.expansion == frame.expansion
    ensures Consume(p, m.(frames := frames), frame', item) == Lift(Consume(p, m, frame, item), frames)
  {
    if item.Plain? {
      TextFrames(p, m, frame, frame', item.range, frames);
    } else {
      DirectiveFrames(p, m, frame, frame', item, frames);
    }
  }

  lemma TextFrames(p: Project, m: Machine, frame: Frame, frame': Frame, range: Range, frames: seq<Frame>)
    requires ItemIn(p, frame, Plain(range)) && frame'.source == frame.source && frame'.expansion == frame.expansion
    ensures OnText(p, m.(frames := frames), frame', range) == Lift(OnText(p, m, frame, range), frames)
  {
    hide HasContent;
  }

  lemma DirectiveFrames(p: Project, m: Machine, frame: Frame, frame': Frame, item: Item, frames: seq<Frame>)
    requires ItemIn(p, frame, item) && item.Directive? && IncludeFree(item)
    requires frame'.source == frame.source && frame'.expansion == frame.expansion
    ensures OnDirective(p, m.(frames := frames), frame', item.range, item.reading)
            == Lift(OnDirective(p, m, frame, item.range, item.reading), frames)
  {
    hide SpendAll, Effect;
    var usage := SpendAll(m.usage, p.limits,
                          [(DirectiveCount, 1), (Work, item.range.Length() as nat)] + item.reading.charges);
    if usage.Done? && Reads(item) {
      var command := item.reading.command.value;
      var m1 := m.(usage := usage.value);
      EffectFrames(p, m1, command, frames);
    }
  }

  lemma EffectFrames(p: Project, m: Machine, command: Command, frames: seq<Frame>)
    ensures Effect(p, m.(frames := frames), command) == Lift(Effect(p, m, command), frames)
  {
    hide Decide, SetTop;
  }

  lemma {:induction false} ConsumeAllFrames(p: Project, m: Machine, frame: Frame, items: seq<Item>, frames: seq<Frame>)
    requires ItemsIn(p, frame, items) && forall i :: 0 <= i < |items| ==> IncludeFree(items[i])
    ensures ConsumeAll(p, m.(frames := frames), frame, items) == Lift(ConsumeAll(p, m, frame, items), frames)
    decreases |items|
  {
    hide Consume, IncludeFree, ItemIn;
    if items != [] {
      ConsumeFrames(p, m, frame, frame, items[0], frames);
      var next := Consume(p, m, frame, items[0]);
      if next.Done? {
        ConsumeAllFrames(p, next.value, frame, items[1..], frames);
      }
    }
  }

  ghost predicate RootOnly(p: Project, m: Machine, root: Frame) {
    && m.frames != [] && m.frames == [root.(next := m.frames[0].next)] && |m.chain| == 1 && root.depth == 0
    && FrameOk(p, m.frames[0]) && ItemsIn(p, root, p.texts[root.source].items.value)
    && forall i :: 0 <= i < |p.texts[root.source].items.value| ==> IncludeFree(p.texts[root.source].items.value[i])
  }

  /** Without includes the machine just consumes the items of its root. */
  lemma {:induction false} RunConsumes(p: Project, m: Machine, root: Frame)
    requires Sound(p, m) && RootOnly(p, m, root)
    ensures var items := p.texts[root.source].items.value[m.frames[0].next..];
            ItemsIn(p, root, items)
            && RunMachine(p, m) == var out := ConsumeAll(p, m, root, items);
                                   if out.Fail? then out else Done(out.value.(frames := [], chain := []))
    decreases |p.texts[root.source].items.value| - m.frames[0].next
  {
    hide Sound, Consume, IncludeFree, ItemIn, ProjectOk;
    var all := p.texts[root.source].items.value;
    var k := m.frames[0].next;
    var items := all[k..];
    Ready(p, m);
    SoundProject(p, m);
    RootStep(p, m, root);
    if k == |all| {
      assert items == [];
    } else {
      var m1 := m.(frames := [root.(next := k + 1)]);
      assert items[0] == all[k] && items[1..] == all[k + 1..];
      ConsumeFrames(p, m, root, m.frames[0], all[k], m1.frames);
      var next := Consume(p, m, root, all[k]);
      if next.Done? {
        var m2 := next.value.(frames := m1.frames);
        StepSound(p, m);
        ConsumeKeepsChain(p, m, root, all[k]);
        RunConsumes(p, m2, root);
        ConsumeAllFrames(p, next.value, root, all[k + 1..], m1.frames);
      }
    }
  }

  lemma SoundProject(p: Project, m: Machine)
    requires Sound(p, m)
    ensures ProjectOk(p)
  {}

  lemma ConsumeKeepsChain(p: Project, m: Machine, frame: Frame, item: Item)
    requires ItemIn(p, frame, item) && IncludeFree(item) && Consume(p, m, frame, item).Done?
    ensures Consume(p, m, frame, item).value.chain == m.chain
  {
    hide Decide, SetTop, SpendAll, HasContent;
  }

  lemma RootStep(p: Project, m: Machine, root: Frame)
    requires ProjectOk(p) && RootOnly(p, m, root)
    ensures var all := p.texts[root.source].items.value;
            var k := m.frames[0].next;
            Step(p, m) == if k == |all| then Done(m.(frames := [], chain := []))
                          else Consume(p, m.(frames := [root.(next := k + 1)]), m.frames[0], all[k])
  {
    hide OnText, OnDirective, IncludeFree, Spend;
    var k := m.frames[0].next;
    assert Current(m) == m.frames[0] && Current(m).depth == 0;
    assert m.frames[..0] == [] && m.chain[..0] == [];
    if k < |p.texts[root.source].items.value| {
      assert ItemAt(p.texts[root.source], k);
      assert Advance(m) == m.(frames := [root.(next := k + 1)]);
    }
  }

  function RootFrame(root: SourceId): Frame {
    Frame(root, ROOT_EXPANSION, 0, 0, 0)
  }

  /** The run and the meaning of the whole tree agree, unless a budget stops the run. */
  ghost predicate RunMeans(p: Project, root: SourceId, symbols: Symbols, out: Outcome<Machine>, nodes: seq<Node>)
    requires root in p.texts && Grown(nodes)
  {
    var means := MeaningOf(nodes, symbols, true);
    match out
    case Fail(fault) => fault.BudgetExceeded? || means == Fail(fault)
    case Done(m) =>
      && means.Done? && m.symbols == means.value.symbols && m.conditionals == []
      && PiecesOk(p.texts[root].bytes, means.value.pieces)
      && PageOf(m) == WriteAll(Page([], [], false), RootFrame(root), p.texts[root].bytes, means.value.pieces)
  }

  ghost predicate TreeOf(items: seq<Item>, nodes: seq<Node>) {
    Grown(nodes) && Flat(nodes) == items
  }

  ghost predicate IncludeFreeSource(p: Project, root: SourceId) {
    Loaded(p, root) && forall i :: 0 <= i < |p.texts[root].items.value| ==> IncludeFree(p.texts[root].items.value[i])
  }

  lemma RootStart(p: Project, root: SourceId, symbols: Symbols, usage: Usage, lexed: set<SourceId>)
    requires Sound(p, Start(root, symbols, usage, lexed)) && IncludeFreeSource(p, root)
    ensures RootOnly(p, Start(root, symbols, usage, lexed), RootFrame(root))
  {
    hide IncludeFree, Stacked, Recorded, Measured;
    var text := p.texts[root];
    forall i | 0 <= i < |text.items.value| ensures ItemIn(p, RootFrame(root), text.items.value[i]) {
      assert ItemAt(text, i);
    }
  }

  /** For a source without includes the machine computes the meaning of its IF tree. */
  lemma RunIsMeaning(p: Project, root: SourceId, symbols: Symbols, usage: Usage, lexed: set<SourceId>, nodes: seq<Node>)
    requires Sound(p, Start(root, symbols, usage, lexed)) && IncludeFreeSource(p, root)
    requires TreeOf(p.texts[root].items.value, nodes)
    ensures RunMeans(p, root, symbols, RunMachine(p, Start(root, symbols, usage, lexed)), nodes)
  {
    hide Sound, IncludeFree, ConsumeAll, RunMachine, Flat, Grown, WriteAll, MeaningOf;
    var m := Start(root, symbols, usage, lexed);
    var items := p.texts[root].items.value;
    RootStart(p, root, symbols, usage, lexed);
    RunConsumes(p, m, RootFrame(root));
    assert items[0..] == items;
    NodesAgree(p, m, RootFrame(root), nodes);
  }

  // ---- Every source that is accepted has a tree

  /** Open groups, by whether their ELSE has been seen. */
  function Scan(flags: seq<bool>, item: Item): Option<seq<bool>> {
    var n := |flags|;
    if IsIf(item) then Some(flags + [false])
    else if IsElseIf(item) then if n == 0 || flags[n - 1] then None else Some(flags)
    else if IsElse(item) then if n == 0 || flags[n - 1] then None else Some(flags[..n - 1] + [true])
    else if IsEndIf(item) then if n == 0 then None else Some(flags[..n - 1])
    else Some(flags)
  }

  function ScanAll(flags: seq<bool>, items: seq<Item>): Option<seq<bool>>
    decreases |items|
  {
    if items == [] then Some(flags)
    else
      var next := Scan(flags, items[0]);
      if next.None? then None else ScanAll(next.value, items[1..])
  }

  function Flags(cs: seq<Conditional>): seq<bool> {
    seq(|cs|, i requires 0 <= i < |cs| => cs[i].sawElse)
  }

  lemma ConsumeScans(p: Project, m: Machine, frame: Frame, item: Item)
    requires ItemIn(p, frame, item) && IncludeFree(item) && Consume(p, m, frame, item).Done?
    ensures Scan(Flags(m.conditionals), item) == Some(Flags(Consume(p, m, frame, item).value.conditionals))
  {
    hide Consume, Leads;
    var m1 := Consume(p, m, frame, item).value;
    var source := p.texts[frame.source].bytes;
    if item.Plain? {
      TextAgreesWith(p, m, frame, item);
      SymbolsOf(m, m1, frame, source, LeafMeaning(item, m.symbols, Active(m.conditionals)).value.pieces, m.symbols,
                m.conditionals);
    } else if item.reading.command.Fail? {
      Unreadable(p, m, frame, item);
    } else {
      DirectiveDoes(p, m, frame, item);
      var e := Effect(p, m, item.reading.command.value).value;
      SymbolsOf(m, m1, frame, source, [Blank(item)], e.symbols, e.conditionals);
      EffectScans(p, m, item);
    }
  }

  lemma EffectScans(p: Project, m: Machine, item: Item)
    requires Reads(item) && IncludeFree(item) && Effect(p, m, item.reading.command.value).Done?
    ensures Scan(Flags(m.conditionals), item)
            == Some(Flags(Effect(p, m, item.reading.command.value).value.conditionals))
  {
    hide Decide;
    var cs := m.conditionals;
    var n := |cs| - 1;
    match item.reading.command.value
    case If(condition) => assert Flags(cs + [Opened(Active(cs), Decide(condition, m.symbols, Active(cs)).value)])
        == Flags(cs) + [false];
    case ElseIf(_) => assert Flags(Effect(p, m, item.reading.command.value).value.conditionals) == Flags(cs);
    case Else => assert Flags(SetTop(cs, LastBranch(cs[n]))) == Flags(cs)[..n] + [true];
    case EndIf => assert Flags(cs[..n]) == Flags(cs)[..n];
    case _ =>
  }

  lemma {:induction false} ConsumeAllScans(p: Project, m: Machine, frame: Frame, items: seq<Item>)
    requires ItemsIn(p, frame, items) && (forall i :: 0 <= i < |items| ==> IncludeFree(items[i]))
    requires ConsumeAll(p, m, frame, items).Done?
    ensures ScanAll(Flags(m.conditionals), items) == Some(Flags(ConsumeAll(p, m, frame, items).value.conditionals))
    decreases |items|
  {
    hide Consume, Scan, IncludeFree, ItemIn, Flags;
    if items != [] {
      ConsumeScans(p, m, frame, items[0]);
      ConsumeAllScans(p, Consume(p, m, frame, items[0]).value, frame, items[1..]);
    }
  }

  predicate EndsBranch(item: Item) {
    IsElseIf(item) || IsElse(item) || IsEndIf(item)
  }

  ghost predicate AllFree(items: seq<Item>) {
    forall i :: 0 <= i < |items| ==> IncludeFree(items[i])
  }

  /** The nodes up to the end of the branch. */
  lemma {:induction false} GrowNodes(items: seq<Item>, flags: seq<bool>) returns (nodes: seq<Node>, rest: seq<Item>)
    requires AllFree(items) && ScanAll(flags, items) == Some([])
    ensures Grown(nodes) && items == Flat(nodes) + rest && AllFree(rest) && ScanAll(flags, rest) == Some([])
    ensures if rest == [] then flags == [] else flags != [] && EndsBranch(rest[0])
    decreases |items|, 1
  {
    if items == [] || EndsBranch(items[0]) {
      return [], items;
    }
    var node;
    var after := items[1..];
    if IsIf(items[0]) {
      node, after := GrowGroup(items, flags);
    } else {
      node := Leaf(items[0]);
      assert items == FlatNode(node) + after;
    }
    var more;
    more, rest := GrowNodes(after, flags);
    nodes := [node] + more;
    assert nodes[1..] == more;
  }

  lemma {:induction false} GrowGroup(items: seq<Item>, flags: seq<bool>) returns (node: Node, after: seq<Item>)
    requires AllFree(items) && items != [] && IsIf(items[0]) && ScanAll(flags, items) == Some([])
    ensures GrownNode(node) && items == FlatNode(node) + after && AllFree(after) && ScanAll(flags, after) == Some([])
    ensures |after| < |items|
    decreases |items|, 0
  {
    hide Flat, FlatRest, IncludeFree;
    var body, tail := GrowNodes(items[1..], flags + [false]);
    var r;
    r, after := GrowRest(tail, flags + [false]);
    assert (flags + [false])[..|flags|] == flags;
    node := Group(items[0], body, r);
    assert items == FlatNode(node) + after;
  }

  lemma {:induction false} GrowRest(items: seq<Item>, flags: seq<bool>) returns (r: Rest, after: seq<Item>)
    requires AllFree(items) && ScanAll(flags, items) == Some([]) && flags != [] && items != [] && EndsBranch(items[0])
    ensures GrownRest(r) && items == FlatRest(r) + after && AllFree(after)
    ensures ScanAll(flags[..|flags| - 1], after) == Some([])
    ensures |after| < |items|
    decreases |items|, 0
  {
    var n := |flags| - 1;
    if IsEndIf(items[0]) {
      return Closed(items[0]), items[1..];
    }
    var body, tail;
    if IsElse(items[0]) {
      var now := flags[..n] + [true];
      body, tail := GrowNodes(items[1..], now);
      r, after := Otherwise(items[0], body, tail[0]), tail[1..];
      assert now[..n] == flags[..n];
    } else {
      body, tail := GrowNodes(items[1..], flags);
      r, after := GrowRest(tail, flags);
      r := Further(items[0], body, r);
    }
  }

  /** Whatever is accepted without includes is a tree, and what is delivered is its meaning. */
  lemma AcceptedIsTree(p: Project, root: SourceId, symbols: Symbols, usage: Usage, lexed: set<SourceId>)
    returns (nodes: seq<Node>)
    requires Sound(p, Start(root, symbols, usage, lexed)) && IncludeFreeSource(p, root)
    requires Prepare(p, Start(root, symbols, usage, lexed)).Done?
    ensures TreeOf(p.texts[root].items.value, nodes)
    ensures RunMeans(p, root, symbols, Prepare(p, Start(root, symbols, usage, lexed)), nodes)
  {
    hide Sound, IncludeFree, ConsumeAll, RunMachine, Flat, Grown, WriteAll, MeaningOf, ScanAll;
    var m := Start(root, symbols, usage, lexed);
    var items := p.texts[root].items.value;
    RootStart(p, root, symbols, usage, lexed);
    RunConsumes(p, m, RootFrame(root));
    assert items[0..] == items;
    ConsumeAllScans(p, m, RootFrame(root), items);
    var rest;
    nodes, rest := GrowNodes(items, []);
    assert Flat(nodes) + [] == Flat(nodes);
    RunIsMeaning(p, root, symbols, usage, lexed, nodes);
  }
}
