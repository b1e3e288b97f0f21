/** The preprocessor machine: include frames, conditionals, symbols, output and its source map. */
module Preprocessor {
  import opened PascalSyntax
  import opened ByteText
  import opened ConditionExpressions
  import opened SourceMaps

  // ---- What the machine reads

  datatype Command =
    | If(condition: Code)
    | ElseIf(condition: Code)
    | Else
    | EndIf
    | Define(symbol: string)
    | Undef(symbol: string)
    | Include
    | Unsupported

  datatype Budget =
    | Work | DirectiveCount | ExpressionBytes | ExpressionTokens
    | OutputBytes | ConditionalDepth | IncludeDepth | Occurrences | ExpressionDepth | SourceBytes

  /** What reading a directive costs, charge by charge, and what it turns out to be. */
  datatype Reading = Reading(charges: seq<(Budget, nat)>, command: Outcome<Command>)

  datatype Item = Plain(range: Range) | Directive(range: Range, reading: Reading)

  /** A source text with its items, or why it cannot be split. */
  datatype Text = Text(bytes: Bytes, items: Outcome<seq<Item>>)

  datatype Limits = Limits(
    work: nat, directives: nat, expressionBytes: nat, expressionTokens: nat,
    outputBytes: nat, conditionalDepth: nat, includeDepth: nat, occurrences: nat)

  datatype Project = Project(texts: map<SourceId, Text>, bindings: map<(SourceId, Range), SourceId>, limits: Limits)

  // ---- What the machine keeps

  datatype Frame = Frame(source: SourceId, expansion: ExpansionId, next: nat, depth: nat, outputStart: nat)

  datatype Conditional = Conditional(parentActive: bool, branchTaken: bool, currentActive: bool, sawElse: bool)

  datatype Usage = Usage(work: nat, directives: nat, expressionBytes: nat, expressionTokens: nat)

  /** `owners` lists the source of every expansion so far, the root first. */
  datatype Machine = Machine(
    frames: seq<Frame>,
    chain: seq<SourceId>,
    conditionals: seq<Conditional>,
    symbols: Symbols,
    output: Bytes,
    segments: seq<Segment>,
    usage: Usage,
    occurrences: nat,
    activeContent: bool,
    lexed: set<SourceId>,
    owners: seq<SourceId>)

  datatype Fault =
    | BudgetExceeded(budget: Budget)
    | InvalidDirective
    | MalformedNesting
    | UnknownActiveCondition
    | UnresolvedInclude
    | IncludeCycle
    | UnsupportedDirective
    | NotLoaded
    | NoCompleteContent
    | EmptyRootId
    | DuplicateSource
    | InvalidSymbol
    | ConflictingSymbol
    | BindingSourceNotLoaded
    | BindingOutOfBounds
    | BindingNotInclude
    | BindingTargetNotLoaded
    | RootNotLoaded
    | DuplicateBinding
    | MapRejected

  datatype Outcome<T> = Done(value: T) | Fail(fault: Fault)

  // ---- Budgets

  function Spend(u: Usage, limits: Limits, budget: Budget, amount: nat): Outcome<Usage> {
    match budget
    case Work => if u.work + amount > limits.work then Fail(BudgetExceeded(Work)) else Done(u.(work := u.work + amount))
    case DirectiveCount =>
      if u.directives + amount > limits.directives then Fail(BudgetExceeded(DirectiveCount))
      else Done(u.(directives := u.directives + amount))
    case ExpressionBytes =>
      if u.expressionBytes + amount > limits.expressionBytes then Fail(BudgetExceeded(ExpressionBytes))
      else Done(u.(expressionBytes := u.expressionBytes + amount))
    case ExpressionTokens =>
      if u.expressionTokens + amount > limits.expressionTokens then Fail(BudgetExceeded(ExpressionTokens))
      else Done(u.(expressionTokens := u.expressionTokens + amount))
    case _ => Done(u)
  }

  /** The charges in order, up to the first that is too much. */
  function SpendAll(u: Usage, limits: Limits, charges: seq<(Budget, nat)>): Outcome<Usage>
    decreases |charges|
  {
    if charges == [] then Done(u)
    else
      var first := Spend(u, limits, charges[0].0, charges[0].1);
      if first.Fail? then first else SpendAll(first.value, limits, charges[1..])
  }

  // ---- Conditionals

  /** Text is live when the innermost open group is in its chosen branch. */
  function Active(cs: seq<Conditional>): bool {
    if cs == [] then true else cs[|cs| - 1].currentActive
  }

  function Opened(parent: bool, holds: bool): Conditional {
    Conditional(parent, holds, holds, false)
  }

  function NextBranch(c: Conditional, holds: bool): Conditional {
    c.(currentActive := holds, branchTaken := c.branchTaken || holds)
  }

  function LastBranch(c: Conditional): Conditional {
    c.(sawElse := true, currentActive := c.parentActive && !c.branchTaken, branchTaken := true)
  }

  /** The value of a condition that is looked at; `Unknown` is refused. */
  function Decide(condition: Code, symbols: Symbols, looked: bool): Outcome<bool> {
    if !looked then Done(false)
    else
      match Evaluate(condition, symbols)
      case True => Done(true)
      case False => Done(false)
      case Unknown => Fail(UnknownActiveCondition)
  }

  function SetTop(cs: seq<Conditional>, c: Conditional): seq<Conditional>
    requires cs != []
  {
    cs[..|cs| - 1] + [c]
  }

  // ---- Output

  function Emit(m: Machine, limits: Limits, bytes: Bytes, segment: Segment): Outcome<Machine> {
    if |m.output| + |bytes| > limits.outputBytes then Fail(BudgetExceeded(OutputBytes))
    else Done(m.(output := m.output + bytes, segments := m.segments + [segment]))
  }

  /** Copy or blank a piece of the current source. */
  function EmitPiece(
    m: Machine, limits: Limits, frame: Frame, source: Bytes, range: Range, kind: Kind): Outcome<Machine>
    requires range.Within(|source|)
  {
    var bytes := if kind.Copied? then Slice(source, range) else Mask(Slice(source, range));
    Emit(m, limits, bytes,
         Segment(Range(|m.output|, |m.output| + |bytes|), Some(Span(frame.source, range)), frame.expansion, kind))
  }

  predicate HasContent(s: Bytes) {
    exists i :: 0 <= i < |s| && !IsWhitespace(s[i])
  }

  // ---- One step

  predicate ItemOk(item: Item, n: nat) {
    item.range.Within(n) && item.range.start < item.range.end
  }

  /** Items follow each other through the whole text. */
  ghost predicate Lexes(text: Text) {
    text.items.Done? ==>
      && (forall i :: 0 <= i < |text.items.value| ==> ItemAt(text, i))
      && Position(text, |text.items.value|) == |text.bytes|
  }

  ghost predicate ItemAt(text: Text, i: nat)
    requires text.items.Done? && i < |text.items.value|
  {
    ItemOk(text.items.value[i], |text.bytes|) && text.items.value[i].range.start == Position(text, i)
  }

  /** Where item `i` starts. */
  function Position(text: Text, i: nat): nat
    requires text.items.Done? && i <= |text.items.value|
  {
    if i == 0 then 0 else text.items.value[i - 1].range.end
  }

  ghost predicate Loaded(p: Project, id: SourceId) {
    id in p.texts && p.texts[id].items.Done?
  }

  ghost predicate FrameOk(p: Project, f: Frame) {
    Loaded(p, f.source) && f.next <= |p.texts[f.source].items.value|
  }

  ghost predicate ProjectOk(p: Project) {
    forall id :: id in p.texts ==> Lexes(p.texts[id])
  }

  function Current(m: Machine): Frame
    requires m.frames != []
  {
    m.frames[|m.frames| - 1]
  }

  /** The current frame is finished; an include ends with a line break of its own. */
  function EndFrame(p: Project, m: Machine): Outcome<Machine>
    requires m.frames != [] && m.chain != []
  {
    var frame := Current(m);
    var m1 := m.(frames := m.frames[..|m.frames| - 1], chain := m.chain[..|m.chain| - 1]);
    if frame.depth > 0 && |m.output| > frame.outputStart && m.output[|m.output| - 1] != LF then
      var usage := Spend(m1.usage, p.limits, Work, 1);
      if usage.Fail? then Fail(usage.fault)
      else
        Emit(m1.(usage := usage.value), p.limits, [LF],
             Segment(Range(|m.output|, |m.output| + 1), None, frame.expansion, Synthetic))
    else Done(m1)
  }

  function OnText(p: Project, m: Machine, frame: Frame, range: Range): Outcome<Machine>
    requires frame.source in p.texts && range.Within(|p.texts[frame.source].bytes|)
  {
    var source := p.texts[frame.source].bytes;
    var usage := Spend(m.usage, p.limits, Work, range.Length());
    if usage.Fail? then Fail(usage.fault)
    else
      var m1 := m.(usage := usage.value);
      if Active(m.conditionals) then
        EmitPiece(m1.(activeContent := m.activeContent || HasContent(Slice(source, range))), p.limits, frame, source,
                  range, Copied)
      else EmitPiece(m1, p.limits, frame, source, range, Masked)
  }

  /** What a directive does to the groups and symbols. */
  function Effect(p: Project, m: Machine, command: Command): Outcome<Machine> {
    var active := Active(m.conditionals);
    match command
    case If(condition) =>
      var holds := Decide(condition, m.symbols, active);
      if holds.Fail? then Fail(holds.fault)
      else if |m.conditionals| + 1 > p.limits.conditionalDepth then Fail(BudgetExceeded(ConditionalDepth))
      else Done(m.(conditionals := m.conditionals + [Opened(active, holds.value)]))
    case ElseIf(condition) =>
      if m.conditionals == [] || m.conditionals[|m.conditionals| - 1].sawElse then Fail(MalformedNesting)
      else
        var c := m.conditionals[|m.conditionals| - 1];
        var holds := Decide(condition, m.symbols, c.parentActive && !c.branchTaken);
        if holds.Fail? then Fail(holds.fault)
            else Done(m.(conditionals := SetTop(m.conditionals, NextBranch(c, holds.value))))
    case Else =>
      if m.conditionals == [] || m.conditionals[|m.conditionals| - 1].sawElse then Fail(MalformedNesting)
      else Done(m.(conditionals := SetTop(m.conditionals, LastBranch(m.conditionals[|m.conditionals| - 1]))))
    case EndIf =>
      if m.conditionals == [] then Fail(MalformedNesting)
          else Done(m.(conditionals := m.conditionals[..|m.conditionals| - 1]))
    case Define(name) => Done(if active then m.(symbols := m.symbols.Set(name, true)) else m)
    case Undef(name) => Done(if active then m.(symbols := m.symbols.Set(name, false)) else m)
    case Include => Done(m)
    case Unsupported => if active then Fail(UnsupportedDirective) else Done(m)
  }

  /** Every directive first has its effect, then is blanked, and only then may open an include. */
  function OnCommand(p: Project, m: Machine, frame: Frame, range: Range, command: Command): Outcome<Machine>
    requires frame.source in p.texts && range.Within(|p.texts[frame.source].bytes|)
  {
    var done := Effect(p, m, command);
    if done.Fail? then done
    else
      var masked := EmitPiece(done.value, p.limits, frame, p.texts[frame.source].bytes, range, Masked);
      if masked.Fail? || !command.Include? || !Active(m.conditionals) then masked
      else Enter(p, masked.value, frame, range)
  }

  /** Open the frame of an included source. */
  function Enter(p: Project, m: Machine, frame: Frame, range: Range): Outcome<Machine> {
    if (frame.source, range) !in p.bindings then Fail(UnresolvedInclude)
    else
      var target := p.bindings[(frame.source, range)];
      var occurrence := m.occurrences + 1;
      if occurrence > p.limits.occurrences then Fail(BudgetExceeded(Occurrences))
      else if frame.depth + 1 > p.limits.includeDepth then Fail(BudgetExceeded(IncludeDepth))
      else if target in m.chain then Fail(IncludeCycle)
      else
        var ready := EnsureLexed(p, m, target);
        if ready.Fail? then Fail(ready.fault)
        else
          var m1 := ready.value;
          Done(m1.(
            frames := m1.frames + [Frame(target, frame.expansion.Child(occurrence), 0, frame.depth + 1, |m1.output|)],
            chain := m1.chain + [target],
            occurrences := occurrence,
            owners := m1.owners + [target]))
  }

  /** A source is split when it is first needed; that costs its length. */
  function EnsureLexed(p: Project, m: Machine, id: SourceId): Outcome<Machine> {
    if id in m.lexed then Done(m)
    else if id !in p.texts then Fail(NotLoaded)
    else
      var usage := Spend(m.usage, p.limits, Work, |p.texts[id].bytes|);
      if usage.Fail? then Fail(usage.fault)
      else if p.texts[id].items.Fail? then Fail(p.texts[id].items.fault)
      else Done(m.(usage := usage.value, lexed := m.lexed + {id}))
  }

  function OnDirective(p: Project, m: Machine, frame: Frame, range: Range, reading: Reading): Outcome<Machine>
    requires frame.source in p.texts && range.Within(|p.texts[frame.source].bytes|)
  {
    var usage := SpendAll(m.usage, p.limits, [(DirectiveCount, 1), (Work, range.Length())] + reading.charges);
    if usage.Fail? then Fail(usage.fault)
    else if reading.command.Fail? then Fail(reading.command.fault)
    else OnCommand(p, m.(usage := usage.value), frame, range, reading.command.value)
  }

  /** The current frame moves on to its next item. */
  function Advance(m: Machine): Machine
    requires m.frames != []
  {
    var n := |m.frames| - 1;
    m.(frames := m.frames[..n] + [Current(m).(next := Current(m).next + 1)])
  }

  function Step(p: Project, m: Machine): Outcome<Machine>
    requires ProjectOk(p) && m.frames != [] && m.chain != [] && FrameOk(p, Current(m))
  {
    var frame := Current(m);
    var text := p.texts[frame.source];
    if frame.next == |text.items.value| then EndFrame(p, m)
    else
      assert ItemAt(text, frame.next);
      match text.items.value[frame.next]
      case Plain(range) => OnText(p, Advance(m), frame, range)
      case Directive(range, reading) => OnDirective(p, Advance(m), frame, range, reading)
  }

  /** The machine at the start, when the root has been split. */
  function Start(root: SourceId, symbols: Symbols, usage: Usage, lexed: set<SourceId>): Machine {
    Machine([Frame(root, ROOT_EXPANSION, 0, 0, 0)], [root], [], symbols, [], [], usage, 0, false, lexed, [root])
  }
}
