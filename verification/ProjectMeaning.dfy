/**
  What a project means, includes and all: a recursion over its sources, without frames or steps.

  A source is read item by item. Live text is copied and everything else is blanked. An include in
  live text stands for the bound source, read in its place under an expansion of its own, and one
  line break more if what that source gave does not end with one. Groups and symbols run on through
  it. Costs are added up and nothing is refused for its cost; the machine stops exactly when they
  are beyond its limits.
  */
module ProjectMeaning {
  import opened PascalSyntax
  import opened ByteText
  import opened ConditionExpressions
  import opened SourceMaps
  import opened Preprocessor
  import opened PreprocessorLaws
  import opened PreparationRuns

  // ---- Groups

  /**
    How far an open group is: no branch has been chosen yet, this one is chosen, an earlier one was,
    or the whole group stands in dead text.
    */
  datatype Stage = Choosing | Chosen | Passed | Dead

  /** `last`: the ELSE of the group has been seen. */
  datatype Branching = Branching(stage: Stage, last: bool)

  predicate Live(groups: seq<Branching>) {
    groups == [] || groups[|groups| - 1].stage == Chosen
  }

  /** A condition in live text must have a value. */
  function Value(condition: Code, symbols: Symbols): Outcome<bool> {
    match Evaluate(condition, symbols)
    case True => Done(true)
    case False => Done(false)
    case Unknown => Fail(UnknownActiveCondition)
  }

  /** The stage of the next branch; its condition is looked at only while the group is choosing. */
  function NextStage(stage: Stage, condition: Code, symbols: Symbols): Outcome<Stage> {
    match stage
    case Choosing =>
      var holds := Value(condition, symbols);
      if holds.Fail? then Fail(holds.fault) else Done(if holds.value then Chosen else Choosing)
    case Chosen => Done(Passed)
    case Passed => Done(Passed)
    case Dead => Done(Dead)
  }

  function LastStage(stage: Stage): Stage {
    match stage
    case Choosing => Chosen
    case Chosen => Passed
    case Passed => Passed
    case Dead => Dead
  }

  function Regroup(groups: seq<Branching>, command: Command, symbols: Symbols): Outcome<seq<Branching>> {
    var n := |groups| - 1;
    match command
    case If(condition) =>
      if !Live(groups) then Done(groups + [Branching(Dead, false)])
      else
        var stage := NextStage(Choosing, condition, symbols);
        if stage.Fail? then Fail(stage.fault) else Done(groups + [Branching(stage.value, false)])
    case ElseIf(condition) =>
      if groups == [] || groups[n].last then Fail(MalformedNesting)
      else
        var stage := NextStage(groups[n].stage, condition, symbols);
        if stage.Fail? then Fail(stage.fault) else Done(groups[..n] + [Branching(stage.value, false)])
    case Else =>
      if groups == [] || groups[n].last then Fail(MalformedNesting)
      else Done(groups[..n] + [Branching(LastStage(groups[n].stage), true)])
    case EndIf => if groups == [] then Fail(MalformedNesting) else Done(groups[..n])
    case _ => Done(groups)
  }

  // ---- What has been read so far

  datatype Draft = Draft(
    symbols: Symbols,
    groups: seq<Branching>,
    output: Bytes,
    segments: seq<Segment>,
    content: bool,
    includes: nat,
    split: set<SourceId>,
    spent: Usage,
    deepestGroup: nat,
    deepestInclude: nat)

  function Larger(a: nat, b: nat): nat {
    if a < b then b else a
  }

  function Charge(d: Draft, charges: seq<(Budget, nat)>): Draft {
    d.(spent := AfterCharges(d.spent, charges))
  }

  /** Where a source is read: its name, its expansion, and the sources being read, this one last. */
  datatype Place = Place(source: SourceId, expansion: ExpansionId, chain: seq<SourceId>)

  function Add(d: Draft, bytes: Bytes, original: Option<Span>, expansion: ExpansionId, kind: Kind): Draft {
    var segment := Segment(Range(|d.output|, |d.output| + |bytes|), original, expansion, kind);
    d.(output := d.output + bytes, segments := d.segments + [segment])
  }

  ghost predicate RangeOk(p: Project, at: Place, range: Range) {
    at.source in p.texts && range.Within(|p.texts[at.source].bytes|)
  }

  ghost function Copy(p: Project, at: Place, range: Range, d: Draft): Draft
    requires RangeOk(p, at, range)
  {
    var bytes := Slice(p.texts[at.source].bytes, range);
    Add(d, bytes, Some(Span(at.source, range)), at.expansion, Copied)
      .(content := d.content || exists i :: 0 <= i < |bytes| && !IsWhitespace(bytes[i]))
  }

  ghost function Blank(p: Project, at: Place, range: Range, d: Draft): Draft
    requires RangeOk(p, at, range)
  {
    Add(d, Mask(Slice(p.texts[at.source].bytes, range)), Some(Span(at.source, range)), at.expansion, Masked)
  }

  // ---- Reading

  /** Every split source can be read anywhere. */
  ghost predicate Readable(p: Project) {
    forall id, i :: Loaded(p, id) && 0 <= i < |p.texts[id].items.value| ==>
      p.texts[id].items.value[i].range.Within(|p.texts[id].bytes|)
  }

  ghost function Unread(p: Project, chain: seq<SourceId>): set<SourceId> {
    p.texts.Keys - set id | id in chain
  }

  /** The items from `i` on. */
  ghost function Read(p: Project, at: Place, i: nat, d: Draft): Outcome<Draft>
    requires Readable(p) && Loaded(p, at.source) && i <= |p.texts[at.source].items.value|
    decreases Unread(p, at.chain), |p.texts[at.source].items.value| - i, 0
  {
    var items := p.texts[at.source].items.value;
    if i == |items| then Done(d)
    else
      var first := ReadItem(p, at, i, d);
      if first.Fail? then first else Read(p, at, i + 1, first.value)
  }

  ghost function ReadItem(p: Project, at: Place, i: nat, d: Draft): Outcome<Draft>
    requires Readable(p) && Loaded(p, at.source) && i < |p.texts[at.source].items.value|
    decreases Unread(p, at.chain), |p.texts[at.source].items.value| - i - 1, 2
  {
    var item := p.texts[at.source].items.value[i];
    var range := item.range;
    match item
    case Plain(_) =>
      var charged := Charge(d, [(Work, range.Length())]);
      Done(if Live(d.groups) then Copy(p, at, range, charged) else Blank(p, at, range, charged))
    case Directive(_, reading) =>
      if reading.command.Fail? then Fail(reading.command.fault)
      else
        var charged := Charge(d, [(DirectiveCount, 1), (Work, range.Length())] + reading.charges);
        var done := Obey(charged, reading.command.value);
        if done.Fail? then done
        else
          var blanked := Blank(p, at, range, done.value);
          if reading.command.value.Include? && Live(d.groups) then Include(p, at, range, blanked) else Done(blanked)
  }

  /** What a directive does to groups and symbols. */
  ghost function Obey(d: Draft, command: Command): Outcome<Draft> {
    var live := Live(d.groups);
    match command
    case Define(name) => Done(if live then d.(symbols := d.symbols.Set(name, true)) else d)
    case Undef(name) => Done(if live then d.(symbols := d.symbols.Set(name, false)) else d)
    case Include => Done(d)
    case Unsupported => if live then Fail(UnsupportedDirective) else Done(d)
    case _ =>
      var groups := Regroup(d.groups, command, d.symbols);
      if groups.Fail? then Fail(groups.fault)
      else Done(d.(groups := groups.value, deepestGroup := Larger(d.deepestGroup, |groups.value|)))
  }

  /** The bound source, read in place of the include. */
  ghost function Include(p: Project, at: Place, range: Range, d: Draft): Outcome<Draft>
    requires Readable(p)
    decreases Unread(p, at.chain), 0, 1
  {
    if (at.source, range) !in p.bindings then Fail(UnresolvedInclude)
    else
      var target := p.bindings[(at.source, range)];
      if target in at.chain then Fail(IncludeCycle)
      else if target !in p.texts then Fail(NotLoaded)
      else if p.texts[target].items.Fail? then Fail(p.texts[target].items.fault)
      else
        var inner := Place(target, at.expansion.Child(d.includes + 1), at.chain + [target]);
        assert target in Unread(p, at.chain) && target !in Unread(p, inner.chain);
        var begun := Open(p, target, |at.chain|, d);
        var read := Read(p, inner, 0, begun);
        if read.Fail? then read else Done(Close(inner.expansion, |d.output|, read.value))
  }

  /** One include more; a source costs its length when it is first needed. */
  ghost function Open(p: Project, target: SourceId, depth: nat, d: Draft): Draft
    requires target in p.texts
  {
    Charge(d, if target in d.split then [] else [(Work, |p.texts[target].bytes|)])
      .(includes := d.includes + 1, split := d.split + {target}, deepestInclude := Larger(d.deepestInclude, depth))
  }

  /** A line break of its own, unless the source gave nothing or its last line is finished. */
  ghost function Close(expansion: ExpansionId, from: nat, d: Draft): Draft {
    if |d.output| > from && d.output[|d.output| - 1] != LF then
      Add(Charge(d, [(Work, 1)]), [LF], None, expansion, Synthetic)
    else d
  }

  /** The costs are within the limits. */
  ghost predicate Affordable(d: Draft, limits: Limits) {
    && UsageOk(d.spent, limits)
    && |d.output| <= limits.outputBytes
    && d.includes <= limits.occurrences
    && d.deepestGroup <= limits.conditionalDepth
    && d.deepestInclude <= limits.includeDepth
  }

  // ---- Costs only grow

  ghost predicate Grows(d: Draft, d': Draft) {
    && d.spent.work <= d'.spent.work && d.spent.directives <= d'.spent.directives
    && d.spent.expressionBytes <= d'.spent.expressionBytes && d.spent.expressionTokens <= d'.spent.expressionTokens
    && |d.output| <= |d'.output| && d.includes <= d'.includes
    && d.deepestGroup <= d'.deepestGroup && d.deepestInclude <= d'.deepestInclude
  }

  /** What cannot be afforded cannot be afforded later. */
  lemma TooMuch(d: Draft, d': Draft, limits: Limits)
    requires Grows(d, d') && Affordable(d', limits)
    ensures Affordable(d, limits)
  {}

  lemma ObeyGrows(d: Draft, command: Command)
    ensures Obey(d, command).Done? ==> Grows(d, Obey(d, command).value)
  {
    hide Regroup;
  }

  lemma {:induction false} ReadGrows(p: Project, at: Place, i: nat, d: Draft)
    requires Readable(p) && Loaded(p, at.source) && i <= |p.texts[at.source].items.value|
    ensures Read(p, at, i, d).Done? ==> Grows(d, Read(p, at, i, d).value)
    decreases Unread(p, at.chain), |p.texts[at.source].items.value| - i, 0
  {
    hide ReadItem, Readable;
    if i < |p.texts[at.source].items.value| {
      ReadItemGrows(p, at, i, d);
      var first := ReadItem(p, at, i, d);
      if first.Done? {
        ReadGrows(p, at, i + 1, first.value);
      }
    }
  }

  lemma {:induction false} ReadItemGrows(p: Project, at: Place, i: nat, d: Draft)
    requires Readable(p) && Loaded(p, at.source) && i < |p.texts[at.source].items.value|
    ensures ReadItem(p, at, i, d).Done? ==> Grows(d, ReadItem(p, at, i, d).value)
    decreases Unread(p, at.chain), |p.texts[at.source].items.value| - i - 1, 2
  {
    hide Include, Obey, Charged, Mask;
    var item := p.texts[at.source].items.value[i];
    if item.Directive? && item.reading.command.Done? {
      var range := item.range;
      var charged := Charge(d, [(DirectiveCount, 1), (Work, range.Length() as nat)] + item.reading.charges);
      ObeyGrows(charged, item.reading.command.value);
      var done := Obey(charged, item.reading.command.value);
      if done.Done? && item.reading.command.value.Include? && Live(d.groups) {
        IncludeGrows(p, at, range, Blank(p, at, range, done.value));
      }
    }
  }

  lemma {:induction false} IncludeGrows(p: Project, at: Place, range: Range, d: Draft)
    requires Readable(p)
    ensures Include(p, at, range, d).Done? ==> Grows(d, Include(p, at, range, d).value)
    decreases Unread(p, at.chain), 0, 1
  {
    hide Read, Charged, Readable;
    if Include(p, at, range, d).Done? {
      var target := p.bindings[(at.source, range)];
      var inner := Place(target, at.expansion.Child(d.includes + 1), at.chain + [target]);
      assert target in Unread(p, at.chain) && target !in Unread(p, inner.chain);
      ReadGrows(p, inner, 0, Open(p, target, |at.chain|, d));
    }
  }

  // ---- A machine shows a draft

  function StageOf(c: Conditional): Stage {
    if !c.parentActive then Dead
    else if c.currentActive then Chosen
    else if c.branchTaken then Passed
    else Choosing
  }

  function GroupsOf(cs: seq<Conditional>): seq<Branching> {
    seq(|cs|, i requires 0 <= i < |cs| => Branching(StageOf(cs[i]), cs[i].sawElse))
  }

  ghost predicate Shows(m: Machine, d: Draft) {
    && m.symbols == d.symbols && GroupsOf(m.conditionals) == d.groups
    && m.output == d.output && m.segments == d.segments && m.activeContent == d.content
    && m.occurrences == d.includes && m.lexed == d.split && m.usage == d.spent
  }

  lemma LiveIs(cs: seq<Conditional>)
    requires Nested(cs)
    ensures Live(GroupsOf(cs)) == Active(cs)
  {
    if cs != [] {
      assert Consistent(cs, |cs| - 1);
    }
  }

  /** The machine went on as the meaning does, or stopped for a cost that the meaning does not spare it. */
  ghost predicate Went(out: Outcome<Machine>, means: Outcome<Draft>, limits: Limits) {
    match out
    case Done(m) => means.Done? && Affordable(means.value, limits) && Shows(m, means.value)
    case Fail(fault) =>
      || means == Fail(fault)
      || (fault.BudgetExceeded? && (means.Done? ==> !Affordable(means.value, limits)))
  }

  // ---- Single effects

  lemma {:induction false} FailsByBudget(u: Usage, limits: Limits, charges: seq<(Budget, nat)>)
    ensures SpendAll(u, limits, charges).Fail? ==> SpendAll(u, limits, charges).fault.BudgetExceeded?
    decreases |charges|
  {
    if charges != [] {
      var first := Spend(u, limits, charges[0].0, charges[0].1);
      if first.Done? {
        FailsByBudget(first.value, limits, charges[1..]);
      }
    }
  }

  /** Paying is charging, as long as the limits allow it. */
  lemma Pays(m: Machine, d: Draft, limits: Limits, charges: seq<(Budget, nat)>)
    requires Shows(m, d) && Affordable(d, limits)
    ensures var paid := SpendAll(m.usage, limits, charges);
            Went(if paid.Fail? then Fail(paid.fault) else Done(m.(usage := paid.value)),
                 Done(Charge(d, charges)), limits)
  {
    hide SpendAll, AfterCharges;
    SpendAllExact(m.usage, limits, charges);
    FailsByBudget(m.usage, limits, charges);
  }

  lemma PaysOne(u: Usage, limits: Limits, budget: Budget, amount: nat)
    ensures Spend(u, limits, budget, amount) == SpendAll(u, limits, [(budget, amount)])
  {
    assert [(budget, amount)][1..] == [];
    var first := Spend(u, limits, budget, amount);
    if first.Done? {
      assert SpendAll(first.value, limits, [(budget, amount)][1..]) == first;
    }
  }

  lemma Writes(
    m: Machine, d: Draft, limits: Limits, bytes: Bytes, original: Option<Span>, expansion: ExpansionId,
    kind: Kind)
    requires Shows(m, d) && Affordable(d, limits)
    ensures Went(Emit(m, limits, bytes, Segment(Range(|m.output|, |m.output| + |bytes|), original, expansion, kind)),
                 Done(Add(d, bytes, original, expansion, kind)), limits)
  {}

  lemma Decides(condition: Code, symbols: Symbols)
    ensures Decide(condition, symbols, true) == Value(condition, symbols)
    ensures Decide(condition, symbols, false) == Done(false)
  {}

  lemma GroupsTop(cs: seq<Conditional>, c: Conditional)
    ensures GroupsOf(cs + [c]) == GroupsOf(cs) + [Branching(StageOf(c), c.sawElse)]
    ensures cs != [] ==> GroupsOf(cs[..|cs| - 1]) == GroupsOf(cs)[..|cs| - 1]
    ensures cs != [] ==> GroupsOf(SetTop(cs, c)) == GroupsOf(cs)[..|cs| - 1] + [Branching(StageOf(c), c.sawElse)]
  {}

  lemma Regroups(p: Project, m: Machine, command: Command)
    requires Nested(m.conditionals) && (command.If? || command.ElseIf? || command.Else? || command.EndIf?)
    ensures var out := Effect(p, m, command);
            var groups := Regroup(GroupsOf(m.conditionals), command, m.symbols);
            match out
            case Done(m1) =>
              && m1 == m.(conditionals := m1.conditionals) && groups == Done(GroupsOf(m1.conditionals))
              && |m1.conditionals| <= Larger(|m.conditionals|, p.limits.conditionalDepth)
            case Fail(fault) =>
              || groups == Fail(fault)
              || (fault.BudgetExceeded? && (groups.Done? ==> |groups.value| > p.limits.conditionalDepth))
  {
    hide Decide, Value, Nested;
    var cs := m.conditionals;
    var n := |cs| - 1;
    LiveIs(cs);
    hide Active;
    match command
    case If(condition) =>
      Decides(condition, m.symbols);
      GroupsTop(cs, Opened(Active(cs), true));
      GroupsTop(cs, Opened(Active(cs), false));
    case ElseIf(condition) =>
      Decides(condition, m.symbols);
      if cs != [] {
        TopConsistent(cs);
        GroupsTop(cs, NextBranch(cs[n], true));
        GroupsTop(cs, NextBranch(cs[n], false));
      }
    case Else =>
      if cs != [] {
        TopConsistent(cs);
        StagesMove(cs[n]);
        GroupsTop(cs, LastBranch(cs[n]));
      }
    case EndIf =>
      GroupsTop(cs, Opened(true, true));
  }

  lemma TopConsistent(cs: seq<Conditional>)
    requires Nested(cs) && cs != []
    ensures cs[|cs| - 1].currentActive ==> cs[|cs| - 1].parentActive && cs[|cs| - 1].branchTaken
  {
    assert Consistent(cs, |cs| - 1);
  }

  lemma StagesMove(c: Conditional)
    requires c.currentActive ==> c.branchTaken
    ensures StageOf(LastBranch(c)) == LastStage(StageOf(c))
  {}

  /** What a directive does to the machine is what it does to the draft. */
  lemma Obeys(p: Project, m: Machine, d: Draft, command: Command)
    requires Nested(m.conditionals) && |m.conditionals| <= p.limits.conditionalDepth
    requires Shows(m, d) && Affordable(d, p.limits)
    ensures Went(Effect(p, m, command), Obey(d, command), p.limits)
    ensures var out := Effect(p, m, command);
            out.Done? ==> out.value == m.(conditionals := out.value.conditionals, symbols := out.value.symbols)
  {
    LiveIs(m.conditionals);
    if command.If? || command.ElseIf? || command.Else? || command.EndIf? {
      Regroups(p, m, command);
      hide Effect, Regroup, GroupsOf, Live, Nested;
    } else {
      hide GroupsOf, Live, Active, Nested;
    }
  }

  lemma CopiesOrBlanks(p: Project, m: Machine, d: Draft, frame: Frame, at: Place, range: Range, kind: Kind)
    requires Shows(m, d) && Affordable(d, p.limits) && !kind.Synthetic?
    requires RangeOk(p, at, range) && frame.source == at.source && frame.expansion == at.expansion
    ensures var source := p.texts[at.source].bytes;
            var bytes := if kind.Copied? then Slice(source, range) else Mask(Slice(source, range));
            Went(EmitPiece(m, p.limits, frame, source, range, kind),
                 Done(Add(d, bytes, Some(Span(at.source, range)), at.expansion, kind)), p.limits)
  {
    hide GroupsOf, Mask;
  }

  /** Text at a place. */
  lemma TextRead(p: Project, m: Machine, d: Draft, frame: Frame, at: Place, range: Range)
    requires Shows(m, d) && Affordable(d, p.limits) && Nested(m.conditionals)
    requires RangeOk(p, at, range) && frame.source == at.source && frame.expansion == at.expansion
    ensures var charged := Charge(d, [(Work, range.Length() as nat)]);
            Went(OnText(p, m, frame, range),
                 Done(if Live(d.groups) then Copy(p, at, range, charged) else Blank(p, at, range, charged)), p.limits)
  {
    var charges := [(Work, range.Length() as nat)];
    LiveIs(m.conditionals);
    PaysOne(m.usage, p.limits, Work, range.Length());
    Pays(m, d, p.limits, charges);
    hide Spend, SpendAll, GroupsOf, Mask, AfterCharges, Live, Active, Nested;
    var paid := SpendAll(m.usage, p.limits, charges);
    if paid.Done? {
      var m1, d1 := m.(usage := paid.value), Charge(d, charges);
      var full := m.activeContent || HasContent(Slice(p.texts[at.source].bytes, range));
      CopiesOrBlanks(p, m1, d1, frame, at, range, Masked);
      CopiesOrBlanks(p, m1.(activeContent := full), d1.(content := full), frame, at, range, Copied);
    }
  }

  /** A directive, up to where it may open an include. */
  ghost function Before(p: Project, at: Place, range: Range, reading: Reading, d: Draft): Outcome<Draft>
    requires RangeOk(p, at, range)
  {
    if reading.command.Fail? then Fail(reading.command.fault)
    else
      var done := Obey(Charge(d, [(DirectiveCount, 1), (Work, range.Length())] + reading.charges),
                       reading.command.value);
      if done.Fail? then done else Done(Blank(p, at, range, done.value))
  }

  function Masking(p: Project, m: Machine, frame: Frame, range: Range, reading: Reading): Outcome<Machine>
    requires frame.source in p.texts && range.Within(|p.texts[frame.source].bytes|)
  {
    var usage := SpendAll(m.usage, p.limits, [(DirectiveCount, 1), (Work, range.Length())] + reading.charges);
    if usage.Fail? then Fail(usage.fault)
    else if reading.command.Fail? then Fail(reading.command.fault)
    else
      var done := Effect(p, m.(usage := usage.value), reading.command.value);
      if done.Fail? then done
      else EmitPiece(done.value, p.limits, frame, p.texts[frame.source].bytes, range, Masked)
  }

  lemma DirectiveIs(p: Project, m: Machine, frame: Frame, range: Range, reading: Reading)
    requires frame.source in p.texts && range.Within(|p.texts[frame.source].bytes|)
    ensures OnDirective(p, m, frame, range, reading)
            == var masked := Masking(p, m, frame, range, reading);
               if masked.Fail? || !reading.command.value.Include? || !Active(m.conditionals) then masked
               else Enter(p, masked.value, frame, range)
    ensures Masking(p, m, frame, range, reading).Done? ==> reading.command.Done?
  {
    hide SpendAll, Effect, EmitPiece, Enter;
  }

  lemma DirectiveRead(p: Project, m: Machine, d: Draft, frame: Frame, at: Place, range: Range, reading: Reading)
    requires Shows(m, d) && Affordable(d, p.limits) && Nested(m.conditionals)
    requires |m.conditionals| <= p.limits.conditionalDepth
    requires RangeOk(p, at, range) && frame.source == at.source && frame.expansion == at.expansion
    ensures Went(Masking(p, m, frame, range, reading), Before(p, at, range, reading, d), p.limits)
    ensures var out := Masking(p, m, frame, range, reading);
            out.Done? ==> out.value.frames == m.frames && out.value.chain == m.chain
  {
    hide SpendAll, AfterCharges, Effect, Obey, GroupsOf, Mask, Nested;
    var charges := [(DirectiveCount, 1), (Work, range.Length() as nat)] + reading.charges;
    Pays(m, d, p.limits, charges);
    var paid := SpendAll(m.usage, p.limits, charges);
    if reading.command.Done? {
      var command := reading.command.value;
      var d1 := Charge(d, charges);
      ObeyGrows(d1, command);
      if paid.Done? {
        var m1 := m.(usage := paid.value);
        Obeys(p, m1, d1, command);
        var done := Effect(p, m1, command);
        if done.Done? {
          CopiesOrBlanks(p, done.value, Obey(d1, command).value, frame, at, range, Masked);
        }
      }
    }
  }

  // ---- Includes

  /** The include can be opened. */
  ghost predicate Opens(p: Project, at: Place, range: Range) {
    && (at.source, range) in p.bindings
    && var target := p.bindings[(at.source, range)];
       target !in at.chain && Loaded(p, target)
  }

  ghost function Inner(p: Project, at: Place, range: Range, d: Draft): Place
    requires Opens(p, at, range)
  {
    var target := p.bindings[(at.source, range)];
    Place(target, at.expansion.Child(d.includes + 1), at.chain + [target])
  }

  ghost function Begun(p: Project, at: Place, range: Range, d: Draft): Draft
    requires Opens(p, at, range)
  {
    Open(p, p.bindings[(at.source, range)], |at.chain|, d)
  }

  /** An include that cannot be opened fails alike; one that can is opened if it can be afforded. */
  lemma Enters(p: Project, m: Machine, d: Draft, frame: Frame, at: Place, range: Range)
    requires Readable(p) && Shows(m, d) && Affordable(d, p.limits) && frame.source == at.source
    requires frame.expansion == at.expansion && m.chain == at.chain && frame.depth + 1 == |at.chain|
    requires forall id :: id in m.lexed ==> Loaded(p, id)
    ensures var out := Enter(p, m, frame, range);
            if Opens(p, at, range) then
              && Went(out, Done(Begun(p, at, range, d)), p.limits)
              && (out.Done? ==>
                    var inner := Inner(p, at, range, d);
                    && out.value.frames
                       == m.frames + [Frame(inner.source, inner.expansion, 0, |at.chain|, |d.output|)]
                    && out.value.chain == inner.chain)
            else Include(p, at, range, d).Fail? && Went(out, Include(p, at, range, d), p.limits)
  {
    hide GroupsOf, AfterCharges, Readable, Read;
    if (at.source, range) in p.bindings {
      var target := p.bindings[(at.source, range)];
      if target in p.texts {
        PaysOne(m.usage, p.limits, Work, |p.texts[target].bytes|);
        Pays(m, d, p.limits, [(Work, |p.texts[target].bytes|)]);
        hide Spend, SpendAll;
        NoCharges(d);
      }
    }
  }

  lemma NoCharges(d: Draft)
    ensures Charge(d, []) == d
  {}

  /** A frame that is finished is closed. */
  lemma Closes(p: Project, m: Machine, d: Draft, from: nat)
    requires m.frames != [] && m.chain != [] && Shows(m, d) && Affordable(d, p.limits)
    requires Current(m).outputStart == from && Current(m).depth > 0
    ensures Went(EndFrame(p, m), Done(Close(Current(m).expansion, from, d)), p.limits)
    ensures var out := EndFrame(p, m);
            out.Done? ==> out.value.frames == m.frames[..|m.frames| - 1] && out.value.chain == m.chain[..|m.chain| - 1]
  {
    PaysOne(m.usage, p.limits, Work, 1);
    Pays(m, d, p.limits, [(Work, 1)]);
    hide Spend, SpendAll, GroupsOf, AfterCharges;
  }

  // ---- Runs

  lemma SoundReadable(p: Project)
    requires ProjectOk(p)
    ensures Readable(p)
  {
    forall id, i | Loaded(p, id) && 0 <= i < |p.texts[id].items.value|
      ensures p.texts[id].items.value[i].range.Within(|p.texts[id].bytes|)
    {
      assert ItemAt(p.texts[id], i);
    }
  }

  /** The machine stands at item `i` of the source at this place. */
  ghost predicate StandsAt(p: Project, m: Machine, at: Place, i: nat) {
    && m.frames != [] && Loaded(p, at.source) && i <= |p.texts[at.source].items.value|
    && Current(m).source == at.source && Current(m).expansion == at.expansion && Current(m).next == i
    && m.chain == at.chain && Current(m).depth + 1 == |at.chain|
  }

  function Moved(frames: seq<Frame>, next: nat): seq<Frame>
    requires frames != []
  {
    frames[..|frames| - 1] + [frames[|frames| - 1].(next := next)]
  }

  /** The run goes on from `m1`, where the machine shows what was read; or it ends here. */
  ghost predicate Leads(
    p: Project, m: Machine, m1: Machine, frames: seq<Frame>, chain: seq<SourceId>, means: Outcome<Draft>)
    requires Sound(p, m)
  {
    if means.Done? && Affordable(means.value, p.limits) then
      && Sound(p, m1) && Shows(m1, means.value) && m1.frames == frames && m1.chain == chain
      && RunMachine(p, m) == RunMachine(p, m1)
    else Ends(RunMachine(p, m), means)
  }

  ghost predicate Ends(out: Outcome<Machine>, means: Outcome<Draft>) {
    out.Fail? && (means == Fail(out.fault) || out.fault.BudgetExceeded?)
  }

  lemma RunStep(p: Project, m: Machine)
    requires Sound(p, m) && m.frames != []
    ensures m.chain != [] && FrameOk(p, Current(m)) && ProjectOk(p)
    ensures Step(p, m).Done? ==> Sound(p, Step(p, m).value)
    ensures RunMachine(p, m) == if Step(p, m).Fail? then Step(p, m) else RunMachine(p, Step(p, m).value)
  {
    Ready(p, m);
    hide Stacked, Nested, Recorded, Measured, Budgeted;
    if Step(p, m).Done? {
      StepSound(p, m);
      StepDecreases(p, m);
    }
  }

  /** What a sound machine offers. */
  lemma SoundGives(p: Project, m: Machine)
    requires Sound(p, m)
    ensures Nested(m.conditionals) && |m.conditionals| <= p.limits.conditionalDepth && Readable(p)
    ensures |m.frames| == |m.chain| && (forall id :: id in m.lexed ==> Loaded(p, id))
    ensures forall i :: 0 <= i < |m.frames| ==> m.frames[i].depth == i
  {
    SoundReadable(p);
    hide Recorded, Measured, Nested, Readable;
    forall i | 0 <= i < |m.frames| ensures m.frames[i].depth == i {
      assert FrameIn(p, m, i);
    }
  }

  /** One step that went as the meaning does. */
  lemma OneStep(p: Project, m: Machine, means: Outcome<Draft>, frames: seq<Frame>, chain: seq<SourceId>)
    returns (m1: Machine)
    requires Sound(p, m) && m.frames != [] && m.chain != [] && FrameOk(p, Current(m)) && ProjectOk(p)
    requires Went(Step(p, m), means, p.limits)
    requires Step(p, m).Done? ==> Step(p, m).value.frames == frames && Step(p, m).value.chain == chain
    ensures Leads(p, m, m1, frames, chain, means)
  {
    hide Step, Sound, Affordable, Shows;
    RunStep(p, m);
    m1 := if Step(p, m).Done? then Step(p, m).value else m;
  }

  /** One stretch after another. */
  lemma LeadsOn(
    p: Project, m: Machine, m1: Machine, m2: Machine, frames: seq<Frame>, chain: seq<SourceId>, frames': seq<Frame>,
    chain': seq<SourceId>, first: Outcome<Draft>, means: Outcome<Draft>)
    requires Sound(p, m) && Leads(p, m, m1, frames, chain, first)
    requires first.Fail? ==> means == first
    requires first.Done? && means.Done? ==> Grows(first.value, means.value)
    requires first.Done? && Affordable(first.value, p.limits) ==>
             Sound(p, m1) && Leads(p, m1, m2, frames', chain', means)
    ensures Leads(p, m, m2, frames', chain', means)
  {
    hide Sound, RunMachine, Shows;
    if first.Done? && means.Done? && Affordable(means.value, p.limits) {
      TooMuch(first.value, means.value, p.limits);
    }
  }

  lemma MovedTwice(frames: seq<Frame>, i: nat, j: nat)
    requires frames != []
    ensures Moved(Moved(frames, i), j) == Moved(frames, j) && Moved(frames, frames[|frames| - 1].next) == frames
  {}

  lemma Advances(m: Machine, d: Draft)
    requires m.frames != [] && Shows(m, d)
    ensures Shows(Advance(m), d) && Advance(m).chain == m.chain && Advance(m).conditionals == m.conditionals
    ensures Advance(m).frames == Moved(m.frames, Current(m).next + 1) && Advance(m).lexed == m.lexed
  {}

  lemma {:induction false} Reads(p: Project, m: Machine, at: Place, i: nat, d: Draft) returns (m1: Machine)
    requires Readable(p) && Sound(p, m) && StandsAt(p, m, at, i) && Shows(m, d) && Affordable(d, p.limits)
    ensures Leads(p, m, m1, Moved(m.frames, |p.texts[at.source].items.value|), m.chain, Read(p, at, i, d))
    decreases Unread(p, at.chain), |p.texts[at.source].items.value| - i, 0
  {
    hide Sound, Shows, RunMachine, ReadItem, Affordable, Readable, Leads;
    var n := |p.texts[at.source].items.value|;
    if i == n {
      m1 := m;
      MovedTwice(m.frames, i, n);
      LeadsSelf(p, m, d);
    } else {
      var first := ReadItem(p, at, i, d);
      var m2 := ReadsItem(p, m, at, i, d);
      m1 := m2;
      if first.Done? && Affordable(first.value, p.limits) {
        ReadGrows(p, at, i + 1, first.value);
        LeadsTo(p, m, m2, Moved(m.frames, i + 1), m.chain, first);
        m1 := Reads(p, m2, at, i + 1, first.value);
        MovedTwice(m.frames, i + 1, n);
      } else if first.Done? {
        ReadGrows(p, at, i + 1, first.value);
      }
      LeadsOn(p, m, m2, m1, Moved(m.frames, i + 1), m.chain, Moved(m.frames, n), m.chain, first, Read(p, at, i, d));
    }
  }

  lemma LeadsSelf(p: Project, m: Machine, d: Draft)
    requires Sound(p, m) && Shows(m, d) && Affordable(d, p.limits)
    ensures Leads(p, m, m, m.frames, m.chain, Done(d))
  {
    hide Sound, RunMachine, Shows, Affordable;
  }

  lemma LeadsTo(p: Project, m: Machine, m1: Machine, frames: seq<Frame>, chain: seq<SourceId>, means: Outcome<Draft>)
    requires Sound(p, m) && Leads(p, m, m1, frames, chain, means) && means.Done? && Affordable(means.value, p.limits)
    ensures Sound(p, m1) && Shows(m1, means.value) && m1.frames == frames && m1.chain == chain
  {
    hide Sound, RunMachine, Shows, Affordable;
  }

  lemma TextStays(p: Project, m: Machine, frame: Frame, range: Range)
    requires frame.source in p.texts && range.Within(|p.texts[frame.source].bytes|)
    ensures var out := OnText(p, m, frame, range);
            out.Done? ==> out.value.frames == m.frames && out.value.chain == m.chain
  {
    hide HasContent, Mask;
  }

  lemma ShownLive(m: Machine, d: Draft)
    requires Shows(m, d) && Nested(m.conditionals)
    ensures Live(d.groups) == Active(m.conditionals)
  {
    LiveIs(m.conditionals);
  }

  /** What the machine does with an item. */
  lemma ItemStep(p: Project, m: Machine, at: Place, i: nat)
    requires ProjectOk(p) && m.chain != [] && StandsAt(p, m, at, i) && i < |p.texts[at.source].items.value|
    ensures FrameOk(p, Current(m)) && RangeOk(p, at, p.texts[at.source].items.value[i].range)
    ensures Step(p, m) == match p.texts[at.source].items.value[i]
                          case Plain(range) => OnText(p, Advance(m), Current(m), range)
                          case Directive(range, reading) => OnDirective(p, Advance(m), Current(m), range, reading)
  {
    hide OnText, OnDirective, Advance;
    assert ItemAt(p.texts[at.source], i);
  }

  lemma ReadsText(p: Project, m: Machine, at: Place, i: nat, d: Draft) returns (m1: Machine)
    requires Readable(p) && Sound(p, m) && StandsAt(p, m, at, i) && Shows(m, d) && Affordable(d, p.limits)
    requires i < |p.texts[at.source].items.value| && p.texts[at.source].items.value[i].Plain?
    ensures Leads(p, m, m1, Moved(m.frames, i + 1), m.chain, ReadItem(p, at, i, d))
  {
    hide Step, Sound, Shows, RunMachine, Affordable, Leads, OnText, Went, Nested, Copy, Blank, Charge, Live;
    hide Advance, Readable, ProjectOk;
    SoundGives(p, m);
    RunStep(p, m);
    ItemStep(p, m, at, i);
    var range := p.texts[at.source].items.value[i].range;
    Advances(m, d);
    TextRead(p, Advance(m), d, Current(m), at, range);
    TextStays(p, Advance(m), Current(m), range);
    m1 := OneStep(p, m, ReadItem(p, at, i, d), Moved(m.frames, i + 1), m.chain);
  }

  /** A directive that opens nothing. */
  lemma ReadsPlainly(p: Project, m: Machine, at: Place, i: nat, d: Draft) returns (m1: Machine)
    requires Readable(p) && Sound(p, m) && StandsAt(p, m, at, i) && Shows(m, d) && Affordable(d, p.limits)
    requires i < |p.texts[at.source].items.value| && p.texts[at.source].items.value[i].Directive?
    requires var command := p.texts[at.source].items.value[i].reading.command;
             command.Done? && command.value.Include? ==> !Live(d.groups)
    ensures Leads(p, m, m1, Moved(m.frames, i + 1), m.chain, ReadItem(p, at, i, d))
  {
    hide Step, Sound, Shows, RunMachine, Affordable, Leads, OnDirective, Went, Nested, Obey, Blank, Charge, Live;
    hide Masking, Advance, Active, Readable, ProjectOk;
    SoundGives(p, m);
    RunStep(p, m);
    ItemStep(p, m, at, i);
    ShownLive(m, d);
    var item := p.texts[at.source].items.value[i];
    Advances(m, d);
    DirectiveIs(p, Advance(m), Current(m), item.range, item.reading);
    DirectiveRead(p, Advance(m), d, Current(m), at, item.range, item.reading);
    assert ReadItem(p, at, i, d) == Before(p, at, item.range, item.reading, d);
    m1 := OneStep(p, m, ReadItem(p, at, i, d), Moved(m.frames, i + 1), m.chain);
  }

  lemma {:induction false} ReadsItem(p: Project, m: Machine, at: Place, i: nat, d: Draft) returns (m1: Machine)
    requires Readable(p) && Sound(p, m) && StandsAt(p, m, at, i) && Shows(m, d) && Affordable(d, p.limits)
    requires i < |p.texts[at.source].items.value|
    ensures Leads(p, m, m1, Moved(m.frames, i + 1), m.chain, ReadItem(p, at, i, d))
    decreases Unread(p, at.chain), |p.texts[at.source].items.value| - i - 1, 2
  {
    hide Sound, Shows, Affordable, Leads, ReadItem, Live, Readable;
    var item := p.texts[at.source].items.value[i];
    if item.Plain? {
      m1 := ReadsText(p, m, at, i, d);
    } else if item.reading.command.Done? && item.reading.command.value.Include? && Live(d.groups) {
      m1 := ReadsInclude(p, m, at, i, d);
    } else {
      m1 := ReadsPlainly(p, m, at, i, d);
    }
  }

  lemma WentFurther(out: Outcome<Machine>, d: Draft, means: Outcome<Draft>, limits: Limits)
    requires out.Fail? && Went(out, Done(d), limits) && (means.Done? ==> Grows(d, means.value))
    ensures Went(out, means, limits)
  {}

  lemma IncludeObeyed(p: Project, at: Place, range: Range, reading: Reading, d: Draft)
    requires RangeOk(p, at, range) && reading.command == Done(Command.Include)
    ensures Before(p, at, range, reading, d).Done? && Before(p, at, range, reading, d).value.split == d.split
  {}

  lemma BegunGrows(p: Project, at: Place, range: Range, d: Draft)
    requires Opens(p, at, range)
    ensures Grows(d, Begun(p, at, range, d))
  {}

  lemma NotOpened(p: Project, at: Place, range: Range, d: Draft)
    requires Readable(p) && !Opens(p, at, range)
    ensures Include(p, at, range, d).Fail?
  {}

  lemma ShownSplit(m: Machine, d: Draft)
    requires Shows(m, d)
    ensures m.lexed == d.split
  {}

  /** An include in live text is first blanked. */
  ghost function Blanked(p: Project, at: Place, i: nat, d: Draft): Draft
    requires Readable(p) && Loaded(p, at.source) && i < |p.texts[at.source].items.value|
    requires p.texts[at.source].items.value[i].Directive?
    requires p.texts[at.source].items.value[i].reading.command == Done(Command.Include)
  {
    var item := p.texts[at.source].items.value[i];
    IncludeObeyed(p, at, item.range, item.reading, d);
    Before(p, at, item.range, item.reading, d).value
  }

  ghost predicate AtInclude(p: Project, at: Place, i: nat, d: Draft) {
    && Loaded(p, at.source) && i < |p.texts[at.source].items.value| && p.texts[at.source].items.value[i].Directive?
    && p.texts[at.source].items.value[i].reading.command == Done(Command.Include) && Live(d.groups)
  }

  lemma IncludeIs(p: Project, at: Place, i: nat, d: Draft)
    requires Readable(p) && AtInclude(p, at, i, d)
    ensures ReadItem(p, at, i, d) == Include(p, at, p.texts[at.source].items.value[i].range, Blanked(p, at, i, d))
  {
    hide Include;
  }

  /** The step at an include in live text: blanked, and then opened if it can be. */
  lemma IncludeStep(p: Project, m: Machine, at: Place, i: nat, d: Draft)
    requires Readable(p) && ProjectOk(p) && Sound(p, m) && StandsAt(p, m, at, i) && m.chain != []
    requires Shows(m, d) && Affordable(d, p.limits) && AtInclude(p, at, i, d)
    ensures FrameOk(p, Current(m))
    ensures var range, d1 := p.texts[at.source].items.value[i].range, Blanked(p, at, i, d);
            if Opens(p, at, range) then
              && Went(Step(p, m), Done(Begun(p, at, range, d1)), p.limits)
              && (Step(p, m).Done? ==>
                    var inner := Inner(p, at, range, d1);
                    && Step(p, m).value.frames == Moved(m.frames, i + 1) + [Frame(inner.source, inner.expansion, 0,
                                                                                  |at.chain|, |d1.output|)]
                    && Step(p, m).value.chain == inner.chain)
            else Include(p, at, range, d1).Fail? && Went(Step(p, m), Include(p, at, range, d1), p.limits)
  {
    hide Step, Sound, Shows, RunMachine, Affordable, OnDirective, Went, Nested, Live, Before;
    hide Masking, Advance, Active, Readable, ProjectOk, Enter, Include, Begun, Inner, Opens, Grows;
    SoundGives(p, m);
    ItemStep(p, m, at, i);
    ShownLive(m, d);
    var item := p.texts[at.source].items.value[i];
    var range, d1 := item.range, Blanked(p, at, i, d);
    IncludeObeyed(p, at, range, item.reading, d);
    Advances(m, d);
    DirectiveIs(p, Advance(m), Current(m), range, item.reading);
    DirectiveRead(p, Advance(m), d, Current(m), at, range, item.reading);
    var masked := Masking(p, Advance(m), Current(m), range, item.reading);
    if masked.Done? {
      ShownMask(masked.value, d1, p.limits);
      ShownSplit(m, d);
      ShownSplit(masked.value, d1);
      Enters(p, masked.value, d1, Current(m), at, range);
    } else if Opens(p, at, range) {
      BegunGrows(p, at, range, d1);
      WentFurther(masked, d1, Done(Begun(p, at, range, d1)), p.limits);
    } else {
      NotOpened(p, at, range, d1);
      WentFurther(masked, d1, Include(p, at, range, d1), p.limits);
    }
  }

  lemma ShownMask(m: Machine, d: Draft, limits: Limits)
    requires Went(Done(m), Done(d), limits)
    ensures Shows(m, d) && Affordable(d, limits)
  {}

  lemma {:induction false} ReadsInclude(p: Project, m: Machine, at: Place, i: nat, d: Draft) returns (m1: Machine)
    requires Readable(p) && Sound(p, m) && StandsAt(p, m, at, i) && Shows(m, d) && Affordable(d, p.limits)
    requires AtInclude(p, at, i, d)
    ensures Leads(p, m, m1, Moved(m.frames, i + 1), m.chain, ReadItem(p, at, i, d))
    decreases Unread(p, at.chain), |p.texts[at.source].items.value| - i - 1, 1
  {
    hide Step, Sound, Shows, RunMachine, Affordable, Leads, Went, Live, Blanked, Readable, ProjectOk, Grows;
    hide ReadItem, Include, Begun, Inner, Opens;
    RunStep(p, m);
    IncludeIs(p, at, i, d);
    IncludeStep(p, m, at, i, d);
    var range, d1 := p.texts[at.source].items.value[i].range, Blanked(p, at, i, d);
    var frames := Moved(m.frames, i + 1);
    if Opens(p, at, range) {
      var inner, begun := Inner(p, at, range, d1), Begun(p, at, range, d1);
      var frame := Frame(inner.source, inner.expansion, 0, |at.chain|, |d1.output|);
      var m2 := OneStep(p, m, Done(begun), frames + [frame], inner.chain);
      m1 := m2;
      BegunToEnd(p, at, range, d1);
      if Affordable(begun, p.limits) {
        LeadsTo(p, m, m2, frames + [frame], inner.chain, Done(begun));
        m1 := ReadsInner(p, m2, at, range, d1, frames);
      }
      LeadsOn(p, m, m2, m1, frames + [frame], inner.chain, frames, m.chain, Done(begun), Include(p, at, range, d1));
    } else {
      NeverDone(Step(p, m), Include(p, at, range, d1), p.limits);
      m1 := OneStep(p, m, Include(p, at, range, d1), frames, m.chain);
    }
  }

  lemma NeverDone(out: Outcome<Machine>, means: Outcome<Draft>, limits: Limits)
    requires Went(out, means, limits) && means.Fail?
    ensures out.Fail?
  {}

  lemma BegunToEnd(p: Project, at: Place, range: Range, d: Draft)
    requires Readable(p) && Opens(p, at, range)
    ensures var means := Include(p, at, range, d); means.Done? ==> Grows(Begun(p, at, range, d), means.value)
  {
    hide Read, Charged, Readable;
    var inner, begun := Inner(p, at, range, d), Begun(p, at, range, d);
    ReadGrows(p, inner, 0, begun);
  }

  lemma InnerIs(p: Project, at: Place, range: Range, d: Draft)
    requires Readable(p) && Opens(p, at, range)
    ensures var inner, begun := Inner(p, at, range, d), Begun(p, at, range, d);
            && Loaded(p, inner.source) && inner.source !in at.chain && inner.chain == at.chain + [inner.source]
            && Unread(p, inner.chain) < Unread(p, at.chain)
            && Include(p, at, range, d)
               == var read := Read(p, inner, 0, begun);
                  if read.Fail? then read else Done(Close(inner.expansion, |d.output|, read.value))
  {
    hide Read, Readable, Close;
    var inner := Inner(p, at, range, d);
    assert inner.source in Unread(p, at.chain) && inner.source !in Unread(p, inner.chain);
  }

  /** The included source is read, and its frame closed. */
  lemma {:induction false} ReadsInner(
    p: Project, m: Machine, at: Place, range: Range, d: Draft, frames: seq<Frame>) returns (m1: Machine)
    requires Readable(p) && Opens(p, at, range) && Sound(p, m) && frames != [] && at.chain != []
    requires var inner := Inner(p, at, range, d);
             && m.frames == frames + [Frame(inner.source, inner.expansion, 0, |at.chain|, |d.output|)]
             && m.chain == inner.chain
    requires Shows(m, Begun(p, at, range, d)) && Affordable(Begun(p, at, range, d), p.limits)
    ensures Leads(p, m, m1, frames, at.chain, Include(p, at, range, d))
    decreases Unread(p, at.chain), 0, 0
  {
    hide Step, Sound, Shows, RunMachine, Affordable, Leads, Readable, ProjectOk, Read, Begun, Inner, Opens;
    hide Grows, Close;
    InnerIs(p, at, range, d);
    var inner, begun := Inner(p, at, range, d), Begun(p, at, range, d);
    var n := |p.texts[inner.source].items.value|;
    var m2 := Reads(p, m, inner, 0, begun);
    var read := Read(p, inner, 0, begun);
    m1 := m2;
    var open := Moved(m.frames, n);
    assert open == frames + [m.frames[|frames|].(next := n)];
    if read.Done? {
      CloseGrows(inner.expansion, |d.output|, read.value);
      if Affordable(read.value, p.limits) {
        LeadsTo(p, m, m2, open, m.chain, read);
        m1 := ClosesInner(p, m2, inner, |d.output|, read.value);
        assert open[..|frames|] == frames && inner.chain[..|at.chain|] == at.chain;
      }
    }
    LeadsOn(p, m, m2, m1, open, m.chain, frames, at.chain, read, Include(p, at, range, d));
  }

  lemma CloseGrows(expansion: ExpansionId, from: nat, d: Draft)
    ensures Grows(d, Close(expansion, from, d))
  {}

  lemma ClosesInner(p: Project, m: Machine, inner: Place, from: nat, d: Draft) returns (m1: Machine)
    requires Sound(p, m) && Shows(m, d) && Affordable(d, p.limits) && m.frames != [] && m.chain != []
    requires Loaded(p, inner.source) && StandsAt(p, m, inner, |p.texts[inner.source].items.value|)
    requires Current(m).outputStart == from && Current(m).depth > 0
    ensures Leads(p, m, m1, m.frames[..|m.frames| - 1], m.chain[..|m.chain| - 1],
                  Done(Close(inner.expansion, from, d)))
  {
    hide Sound, Shows, RunMachine, Affordable, Leads, EndFrame, Went, ProjectOk, Close;
    RunStep(p, m);
    Closes(p, m, d, from);
    m1 := OneStep(p, m, Done(Close(inner.expansion, from, d)), m.frames[..|m.frames| - 1], m.chain[..|m.chain| - 1]);
  }

  // ---- Whole projects

  function Blankly(symbols: Symbols, usage: Usage, split: set<SourceId>): Draft {
    Draft(symbols, [], [], [], false, 0, split, usage, 0, 0)
  }

  function RootPlace(root: SourceId): Place {
    Place(root, ROOT_EXPANSION, [root])
  }

  /** What the root source of a project means, given the symbols, and what has been spent and split already. */
  ghost function MeaningOf(
    p: Project, root: SourceId, symbols: Symbols, usage: Usage, split: set<SourceId>): Outcome<Draft>
    requires Readable(p) && Loaded(p, root)
  {
    Read(p, RootPlace(root), 0, Blankly(symbols, usage, split))
  }

  /** The run ends well exactly when the project has a meaning that can be afforded, and then shows it. */
  ghost predicate Yields(out: Outcome<Machine>, means: Outcome<Draft>, limits: Limits) {
    && (out.Done? <==> means.Done? && Affordable(means.value, limits))
    && Went(out, means, limits)
  }

  lemma StartGives(p: Project, root: SourceId, symbols: Symbols, usage: Usage, lexed: set<SourceId>)
    requires Sound(p, Start(root, symbols, usage, lexed))
    ensures Readable(p) && ProjectOk(p) && Loaded(p, root)
    ensures StandsAt(p, Start(root, symbols, usage, lexed), RootPlace(root), 0)
    ensures Shows(Start(root, symbols, usage, lexed), Blankly(symbols, usage, lexed))
    ensures Affordable(Blankly(symbols, usage, lexed), p.limits)
  {
    SoundReadable(p);
    hide Readable, Recorded, Measured;
    assert FrameIn(p, Start(root, symbols, usage, lexed), 0);
  }

  /** For every project, the machine computes its meaning. */
  lemma RunIsMeaning(p: Project, root: SourceId, symbols: Symbols, usage: Usage, lexed: set<SourceId>)
    requires Sound(p, Start(root, symbols, usage, lexed))
    ensures Readable(p) && Loaded(p, root)
    ensures Yields(RunMachine(p, Start(root, symbols, usage, lexed)), MeaningOf(p, root, symbols, usage, lexed),
                   p.limits)
  {
    hide Readable, Shows, StandsAt, Affordable, Read, RunMachine, Leads, Sound;
    var m, d := Start(root, symbols, usage, lexed), Blankly(symbols, usage, lexed);
    StartGives(p, root, symbols, usage, lexed);
    var m1 := Reads(p, m, RootPlace(root), 0, d);
    var n := |p.texts[root].items.value|;
    var means := Read(p, RootPlace(root), 0, d);
    if means.Done? && Affordable(means.value, p.limits) {
      LeadsTo(p, m, m1, Moved(m.frames, n), m.chain, means);
      RootEnds(p, m, m1, means.value);
    } else {
      RunEnds(p, m, m1, Moved(m.frames, n), m.chain, means);
    }
  }

  lemma RunEnds(p: Project, m: Machine, m1: Machine, frames: seq<Frame>, chain: seq<SourceId>, means: Outcome<Draft>)
    requires Sound(p, m) && Leads(p, m, m1, frames, chain, means)
    requires !(means.Done? && Affordable(means.value, p.limits))
    ensures Yields(RunMachine(p, m), means, p.limits)
  {
    hide Sound, RunMachine, Affordable, Shows;
  }

  /** The root is finished without a line break of its own. */
  lemma RootEnds(p: Project, m: Machine, m1: Machine, d: Draft)
    requires Sound(p, m) && Sound(p, m1) && Leads(p, m, m1, m1.frames, m1.chain, Done(d)) && Affordable(d, p.limits)
    requires |m1.frames| == |m1.chain| == 1 && m1.frames[0].depth == 0
    requires Loaded(p, m1.frames[0].source) && m1.frames[0].next == |p.texts[m1.frames[0].source].items.value|
    ensures Yields(RunMachine(p, m), Done(d), p.limits)
  {
    hide Sound, RunMachine;
    RunStep(p, m1);
    var m2 := m1.(frames := [], chain := []);
    assert Step(p, m1) == Done(m2);
    RunNothing(p, m2);
  }

  lemma RunNothing(p: Project, m: Machine)
    requires Sound(p, m) && m.frames == []
    ensures RunMachine(p, m) == Done(m)
  {}

  /**
    What is delivered: the bytes and segments that were read, if all groups are closed, something in
    live text is not blank and every source has a name; and otherwise the reason.
    */
  ghost predicate Delivers(means: Outcome<Draft>, limits: Limits, sources: seq<Snapshot>, r: Outcome<SourceMap>) {
    match r
    case Done(made) =>
      && means.Done? && Affordable(means.value, limits) && means.value.groups == [] && means.value.content
      && AllNamed(sources) && made == SourceMap(means.value.output, sources, means.value.segments)
    case Fail(fault) =>
      || means == Fail(fault)
      || (fault.BudgetExceeded? && (means.Done? ==> !Affordable(means.value, limits)))
      || (fault == MalformedNesting && means.Done? && means.value.groups != [])
      || (fault == NoCompleteContent && means.Done? && !means.value.content)
      || (fault == MapRejected && !AllNamed(sources))
  }

  lemma PrepareIsMeaning(
    p: Project, root: SourceId, symbols: Symbols, usage: Usage, lexed: set<SourceId>, sources: seq<Snapshot>,
    r: Outcome<SourceMap>)
    requires Sound(p, Start(root, symbols, usage, lexed))
    requires var end := Prepare(p, Start(root, symbols, usage, lexed));
             if end.Fail? then r == Fail(end.fault)
             else if AllNamed(sources) then r == Done(SourceMap(end.value.output, sources, end.value.segments))
             else r == Fail(MapRejected)
    ensures Readable(p) && Loaded(p, root)
    ensures Delivers(MeaningOf(p, root, symbols, usage, lexed), p.limits, sources, r)
  {
    hide Sound, RunMachine, MeaningOf, Readable, AllNamed, Affordable;
    RunIsMeaning(p, root, symbols, usage, lexed);
  }
}
