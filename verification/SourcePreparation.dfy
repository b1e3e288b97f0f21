/** Preparing one source: the loop over include frames that updates the machine in place. */
module SourcePreparation {
  import opened PascalSyntax
  import opened ByteText
  import opened ConditionExpressions
  import opened SourceMaps
  import opened Preprocessor
  import opened PreprocessorLaws
  import opened PreparationRuns
  import opened Directives
  import opened DirectiveLexer

  class Preparation {
    const project: Project

    var frames: seq<Frame>
    var chain: seq<SourceId>
    var conditionals: seq<Conditional>
    var symbols: Symbols
    var output: Bytes
    var segments: seq<Segment>
    var usage: Usage
    var occurrences: nat
    var activeContent: bool
    var lexed: set<SourceId>
    ghost var owners: seq<SourceId>

    ghost function State(): Machine
      reads this
    {
      Machine(frames, chain, conditionals, symbols, output, segments, usage, occurrences, activeContent, lexed, owners)
    }

    constructor (project: Project, root: SourceId, symbols: Symbols, usage: Usage, lexed: set<SourceId>)
      ensures this.project == project && State() == Start(root, symbols, usage, lexed)
    {
      this.project := project;
      frames, chain, conditionals := [Frame(root, ROOT_EXPANSION, 0, 0, 0)], [root], [];
      this.symbols, output, segments := symbols, [], [];
      this.usage, occurrences, activeContent, this.lexed, owners := usage, 0, false, lexed, [root];
    }

    /** The call did what the machine's step function does, up to its fault if it has one. */
    ghost predicate Did(spec: Outcome<Machine>, fault: Option<Fault>)
      reads this
    {
      match spec
      case Done(m) => fault.None? && State() == m
      case Fail(f) => fault == Some(f)
    }

    method Charge(budget: Budget, amount: nat) returns (fault: Option<Fault>)
      modifies `usage
      ensures match Spend(old(usage), project.limits, budget, amount)
              case Done(u) => fault.None? && usage == u
              case Fail(f) => fault == Some(f)
    {
      var spent := Spend(usage, project.limits, budget, amount);
      if spent.Fail? {
        return Some(spent.fault);
      }
      usage := spent.value;
      fault := None;
    }

    method ChargeAll(charges: seq<(Budget, nat)>) returns (fault: Option<Fault>)
      modifies `usage
      ensures match SpendAll(old(usage), project.limits, charges)
              case Done(u) => fault.None? && usage == u
              case Fail(f) => fault == Some(f)
    {
      var i := 0;
      while i < |charges|
        invariant 0 <= i <= |charges|
        invariant SpendAll(usage, project.limits, charges[i..]) == SpendAll(old(usage), project.limits, charges)
      {
        assert charges[i..][0] == charges[i] && charges[i..][1..] == charges[i + 1..];
        fault := Charge(charges[i].0, charges[i].1);
        if fault.Some? {
          return;
        }
        i := i + 1;
      }
      fault := None;
    }

    method Append(bytes: Bytes, segment: Segment) returns (fault: Option<Fault>)
      modifies `output, `segments
      ensures Did(Emit(old(State()), project.limits, bytes, segment), fault)
    {
      if |output| + |bytes| > project.limits.outputBytes {
        return Some(BudgetExceeded(OutputBytes));
      }
      output := output + bytes;
      segments := segments + [segment];
      fault := None;
    }

    method AppendPiece(frame: Frame, source: Bytes, range: Range, kind: Kind) returns (fault: Option<Fault>)
      requires range.Within(|source|)
      modifies `output, `segments
      ensures Did(EmitPiece(old(State()), project.limits, frame, source, range, kind), fault)
    {
      var bytes := if kind.Copied? then Slice(source, range) else Mask(Slice(source, range));
      fault := Append(bytes, Segment(Range(|output|, |output| + |bytes|), Some(Span(frame.source, range)),
                                     frame.expansion, kind));
    }

    method CloseFrame() returns (fault: Option<Fault>)
      requires frames != [] && chain != []
      modifies this
      ensures Did(EndFrame(project, old(State())), fault)
    {
      var frame := frames[|frames| - 1];
      frames, chain := frames[..|frames| - 1], chain[..|chain| - 1];
      if frame.depth > 0 && |output| > frame.outputStart && output[|output| - 1] != LF {
        fault := Charge(Work, 1);
        if fault.Some? {
          return;
        }
        fault := Append([LF], Segment(Range(|output|, |output| + 1), None, frame.expansion, Synthetic));
        return;
      }
      fault := None;
    }

    method CopyText(frame: Frame, range: Range) returns (fault: Option<Fault>)
      requires frame.source in project.texts && range.Within(|project.texts[frame.source].bytes|)
      modifies this
      ensures Did(OnText(project, old(State()), frame, range), fault)
    {
      var source := project.texts[frame.source].bytes;
      fault := Charge(Work, range.Length());
      if fault.Some? {
        return;
      }
      if Active(conditionals) {
        activeContent := activeContent || HasContent(Slice(source, range));
        fault := AppendPiece(frame, source, range, Copied);
      } else {
        fault := AppendPiece(frame, source, range, Masked);
      }
    }

    /** `if`, `elseif`, `else` and `endif`. */
    method Conditionally(command: Command) returns (fault: Option<Fault>)
      requires command.If? || command.ElseIf? || command.Else? || command.EndIf?
      modifies `conditionals
      ensures Did(Effect(project, old(State()), command), fault)
    {
      hide Evaluate;
      match command {
        case If(condition) =>
          var holds := Decide(condition, symbols, Active(conditionals));
          if holds.Fail? {
            return Some(holds.fault);
          }
          if |conditionals| + 1 > project.limits.conditionalDepth {
            return Some(BudgetExceeded(ConditionalDepth));
          }
          conditionals := conditionals + [Opened(Active(conditionals), holds.value)];
        case ElseIf(condition) =>
          if conditionals == [] || conditionals[|conditionals| - 1].sawElse {
            return Some(MalformedNesting);
          }
          var c := conditionals[|conditionals| - 1];
          var holds := Decide(condition, symbols, c.parentActive && !c.branchTaken);
          if holds.Fail? {
            return Some(holds.fault);
          }
          conditionals := SetTop(conditionals, NextBranch(c, holds.value));
        case Else =>
          if conditionals == [] || conditionals[|conditionals| - 1].sawElse {
            return Some(MalformedNesting);
          }
          conditionals := SetTop(conditionals, LastBranch(conditionals[|conditionals| - 1]));
        case EndIf =>
          if conditionals == [] {
            return Some(MalformedNesting);
          }
          conditionals := conditionals[..|conditionals| - 1];
      }
      fault := None;
    }

    /** The effect of a directive on the groups and symbols. */
    method Affect(command: Command) returns (fault: Option<Fault>)
      modifies `conditionals, `symbols
      ensures Did(Effect(project, old(State()), command), fault)
    {
      var active := Active(conditionals);
      fault := None;
      match command {
        case Define(name) =>
          if active {
            symbols := symbols.Set(name, true);
          }
        case Undef(name) =>
          if active {
            symbols := symbols.Set(name, false);
          }
        case Include =>
        case Unsupported =>
          if active {
            fault := Some(UnsupportedDirective);
          }
        case _ => fault := Conditionally(command);
      }
    }

    method Lex(id: SourceId) returns (fault: Option<Fault>)
      modifies `usage, `lexed
      ensures Did(EnsureLexed(project, old(State()), id), fault)
    {
      if id in lexed {
        return None;
      }
      if id !in project.texts {
        return Some(NotLoaded);
      }
      fault := Charge(Work, |project.texts[id].bytes|);
      if fault.Some? {
        return;
      }
      if project.texts[id].items.Fail? {
        return Some(project.texts[id].items.fault);
      }
      lexed := lexed + {id};
    }

    method OpenFrame(frame: Frame, range: Range) returns (fault: Option<Fault>)
      modifies this
      ensures Did(Enter(project, old(State()), frame, range), fault)
    {
      if (frame.source, range) !in project.bindings {
        return Some(UnresolvedInclude);
      }
      var target := project.bindings[(frame.source, range)];
      var occurrence := occurrences + 1;
      if occurrence > project.limits.occurrences {
        return Some(BudgetExceeded(Occurrences));
      }
      if frame.depth + 1 > project.limits.includeDepth {
        return Some(BudgetExceeded(IncludeDepth));
      }
      if target in chain {
        return Some(IncludeCycle);
      }
      fault := Lex(target);
      if fault.Some? {
        return;
      }
      occurrences := occurrence;
      frames := frames + [Frame(target, frame.expansion.Child(occurrence), 0, frame.depth + 1, |output|)];
      chain := chain + [target];
      owners := owners + [target];
    }

    method Obey(frame: Frame, range: Range, command: Command) returns (fault: Option<Fault>)
      requires frame.source in project.texts && range.Within(|project.texts[frame.source].bytes|)
      modifies this
      ensures Did(OnCommand(project, old(State()), frame, range, command), fault)
    {
      hide Effect, EmitPiece, Enter;
      var entering := command.Include? && Active(conditionals);
      fault := Affect(command);
      if fault.Some? {
        return;
      }
      fault := AppendPiece(frame, project.texts[frame.source].bytes, range, Masked);
      if fault.None? && entering {
        fault := OpenFrame(frame, range);
      }
    }

    method ObeyDirective(frame: Frame, range: Range, reading: Reading) returns (fault: Option<Fault>)
      requires frame.source in project.texts && range.Within(|project.texts[frame.source].bytes|)
      modifies this
      ensures Did(OnDirective(project, old(State()), frame, range, reading), fault)
    {
      hide OnCommand, SpendAll;
      fault := ChargeAll([(DirectiveCount, 1), (Work, range.Length())] + reading.charges);
      if fault.Some? {
        return;
      }
      if reading.command.Fail? {
        return Some(reading.command.fault);
      }
      fault := Obey(frame, range, reading.command.value);
    }

    method Step() returns (fault: Option<Fault>)
      requires ProjectOk(project) && frames != [] && chain != [] && FrameOk(project, frames[|frames| - 1])
      modifies this
      ensures Did(Preprocessor.Step(project, old(State())), fault)
    {
      hide OnText, OnDirective, EndFrame;
      var n := |frames| - 1;
      var frame := frames[n];
      var items := project.texts[frame.source].items.value;
      if frame.next == |items| {
        fault := CloseFrame();
        return;
      }
      assert ItemAt(project.texts[frame.source], frame.next);
      frames := frames[..n] + [frame.(next := frame.next + 1)];
      match items[frame.next] {
        case Plain(range) => fault := CopyText(frame, range);
        case Directive(range, reading) => fault := ObeyDirective(frame, range, reading);
      }
    }

    /** Step until no frame is open. */
    method Run() returns (fault: Option<Fault>)
      requires Sound(project, State())
      modifies this
      ensures Did(RunMachine(project, old(State())), fault)
    {
      hide Sound, Preprocessor.Step;
      while frames != []
        invariant Sound(project, State()) && RunMachine(project, State()) == RunMachine(project, old(State()))
        decreases project.limits.occurrences - occurrences, LeftToDo(project, State())
      {
        ghost var m := State();
        Ready(project, m);
        SoundParts(project, m);
        fault := Step();
        if fault.Some? {
          return;
        }
        StepSound(project, m);
        StepDecreases(project, m);
        SoundParts(project, State());
      }
      fault := None;
    }
  }

  lemma SoundParts(p: Project, m: Machine)
    requires Sound(p, m)
    ensures ProjectOk(p) && m.occurrences <= p.limits.occurrences
  {}

  /** The prepared bytes with their source map, which is refused only when a source has no name. */
  method PrepareSource(
    project: Project, root: SourceId, symbols: Symbols, usage: Usage, lexed: set<SourceId>, sources: seq<Snapshot>)
    returns (r: Outcome<SourceMap>)
    requires Sound(project, Start(root, symbols, usage, lexed)) && Lists(sources, project)
    ensures match Prepare(project, Start(root, symbols, usage, lexed))
            case Done(m) =>
              if AllNamed(sources) then r == Done(SourceMap(m.output, sources, m.segments))
                  && ValidMap(m.output, sources, m.segments)
              else r == Fail(MapRejected)
            case Fail(f) => r == Fail(f)
  {
    hide Sound, Lists, ValidMap, RunMachine, AllNamed;
    var preparation := new Preparation(project, root, symbols, usage, lexed);
    ghost var start := preparation.State();
    var fault := preparation.Run();
    if fault.Some? {
      return Fail(fault.value);
    }
    if preparation.conditionals != [] {
      return Fail(MalformedNesting);
    }
    if !preparation.activeContent {
      return Fail(NoCompleteContent);
    }
    RunSound(project, start);
    SoundIsValid(project, preparation.State(), sources);
    var made := NewSourceMap(preparation.output, sources, preparation.segments);
    r := if made.Err? then Fail(MapRejected) else Done(made.value);
  }

  // ---- What the caller hands in

  datatype Binding = Binding(source: SourceId, range: Range, target: SourceId)

  datatype Options = Options(
    defined: seq<Bytes>, undefined: seq<Bytes>, completeness: Completeness, limits: Limits, sourceBytes: nat,
    expressionDepth: nat)

  function TotalBytes(sources: seq<Snapshot>): nat {
    if sources == [] then 0 else TotalBytes(sources[..|sources| - 1]) + |sources[|sources| - 1].bytes|
  }

  ghost predicate DistinctIds(sources: seq<Snapshot>) {
    forall i, j :: 0 <= i < j < |sources| ==> sources[i].id != sources[j].id
  }

  ghost predicate SplitOf(text: Text, options: Options) {
    LexedAs(text.bytes, text.items, options.limits.directives, options.expressionDepth)
  }

  /** Every text is the split of a snapshot. */
  ghost predicate Catalogued(texts: map<SourceId, Text>, sources: seq<Snapshot>, options: Options) {
    && (forall id :: id in texts ==> SplitOf(texts[id], options) && Listed(sources, id, texts[id].bytes))
    && (forall i :: 0 <= i < |sources| ==> sources[i].id in texts)
  }

  ghost predicate Listed(sources: seq<Snapshot>, id: SourceId, bytes: Bytes) {
    exists k :: 0 <= k < |sources| && sources[k] == Snapshot(id, bytes)
  }

  method Catalog(sources: seq<Snapshot>, options: Options) returns (r: Outcome<map<SourceId, Text>>)
    ensures r.Done? <==> DistinctIds(sources) && TotalBytes(sources) <= options.sourceBytes
    ensures r.Done? ==> Catalogued(r.value, sources, options)
  {
    hide LexedAs, Catalogued, DistinctIds, TotalBytes;
    var texts: map<SourceId, Text> := map[];
    var total, i := 0, 0;
    CatalogueNothing(sources, options);
    while i < |sources|
      invariant 0 <= i <= |sources| && total == TotalBytes(sources[..i]) <= options.sourceBytes
      invariant DistinctIds(sources[..i]) && Catalogued(texts, sources[..i], options)
    {
      var source := sources[i];
      assert sources[..i + 1] == sources[..i] + [source];
      TotalMore(sources, i);
      total := total + |source.bytes|;
      if total > options.sourceBytes {
        TotalGrows(sources, i + 1);
        return Fail(BudgetExceeded(SourceBytes));
      }
      DistinctMore(texts, sources, i, options);
      if source.id in texts {
        return Fail(DuplicateSource);
      }
      var items := LexSource(source.bytes, options.limits.directives, options.expressionDepth);
      CatalogueMore(texts, sources[..i], source, items, options);
      texts := texts[source.id := Text(source.bytes, items)];
      i := i + 1;
    }
    assert sources[..i] == sources;
    r := Done(texts);
  }

  lemma CatalogueNothing(sources: seq<Snapshot>, options: Options)
    ensures TotalBytes(sources[..0]) == 0 && DistinctIds(sources[..0]) && Catalogued(map[], sources[..0], options)
  {}

  lemma TotalMore(sources: seq<Snapshot>, i: nat)
    requires i < |sources|
    ensures TotalBytes(sources[..i + 1]) == TotalBytes(sources[..i]) + |sources[i].bytes|
  {
    assert sources[..i + 1][..i] == sources[..i];
  }

  lemma DistinctMore(texts: map<SourceId, Text>, sources: seq<Snapshot>, i: nat, options: Options)
    requires i < |sources| && DistinctIds(sources[..i]) && Catalogued(texts, sources[..i], options)
    ensures if sources[i].id in texts then !DistinctIds(sources) else DistinctIds(sources[..i + 1])
  {
    hide LexedAs;
    var id := sources[i].id;
    if id in texts {
      assert Listed(sources[..i], id, texts[id].bytes);
      var k :| 0 <= k < i && sources[..i][k] == Snapshot(id, texts[id].bytes);
      assert sources[k].id == sources[i].id;
    } else {
      assert forall k :: 0 <= k < i ==> sources[..i][k].id != id;
      assert forall k :: 0 <= k < i ==> sources[..i][k] == sources[k];
    }
  }

  lemma {:induction false} TotalGrows(sources: seq<Snapshot>, n: nat)
    requires n <= |sources|
    ensures TotalBytes(sources[..n]) <= TotalBytes(sources)
    decreases |sources| - n
  {
    if n == |sources| {
      assert sources[..n] == sources;
    } else {
      TotalGrows(sources, n + 1);
      assert sources[..n + 1][..n] == sources[..n];
    }
  }

  lemma CatalogueMore(
    texts: map<SourceId, Text>, sources: seq<Snapshot>, source: Snapshot, items: Outcome<seq<Item>>, options: Options)
    requires Catalogued(texts, sources, options) && source.id !in texts && SplitOf(Text(source.bytes, items), options)
    ensures Catalogued(texts[source.id := Text(source.bytes, items)], sources + [source], options)
  {
    hide SplitOf;
    var all := sources + [source];
    var more := texts[source.id := Text(source.bytes, items)];
    forall id | id in more ensures SplitOf(more[id], options) && Listed(all, id, more[id].bytes) {
      if id == source.id {
        assert all[|sources|] == Snapshot(id, more[id].bytes);
      } else {
        assert Listed(sources, id, texts[id].bytes);
        var k :| 0 <= k < |sources| && sources[k] == Snapshot(id, texts[id].bytes);
        assert all[k] == sources[k];
      }
    }
  }

  // ---- Initial symbols

  ghost predicate AllNames(names: seq<Bytes>) {
    forall i :: 0 <= i < |names| ==> SymbolOf(names[i]).Some?
  }

  ghost predicate Mentions(names: seq<Bytes>, name: string) {
    exists i :: 0 <= i < |names| && SymbolOf(names[i]) == Some(name)
  }

  /** Exactly the named symbols are known: true for the first list, false for the second. */
  ghost predicate Knows(values: map<string, bool>, defined: seq<Bytes>, undefined: seq<Bytes>) {
    && (forall n :: n in values <==> Mentions(defined, n) || Mentions(undefined, n))
    && (forall n :: n in values && Mentions(defined, n) ==> values[n])
    && (forall n :: n in values && Mentions(undefined, n) ==> !values[n])
  }

  ghost predicate Conflict(defined: seq<Bytes>, undefined: seq<Bytes>) {
    exists n :: Mentions(defined, n) && Mentions(undefined, n)
  }

  method InitialSymbols(options: Options) returns (r: Outcome<Symbols>)
    ensures r.Done? <==>
              AllNames(options.defined) && AllNames(options.undefined) && !Conflict(options.defined, options.undefined)
    ensures r.Done? ==>
              && Knows(r.value.values, options.defined, options.undefined)
              && r.value.completeness == options.completeness
  {
    var values: map<string, bool> := map[];
    var i := 0;
    while i < |options.defined|
      invariant 0 <= i <= |options.defined| && AllNames(options.defined[..i]) && Knows(values, options.defined[..i], [])
    {
      var name := SymbolOf(options.defined[i]);
      if name.None? {
        return Fail(InvalidSymbol);
      }
      MentionsMore(options.defined, i);
      values := values[name.value := true];
      i := i + 1;
    }
    assert options.defined[..i] == options.defined;
    i := 0;
    assert options.undefined[..0] == [];
    while i < |options.undefined|
      invariant 0 <= i <= |options.undefined| && AllNames(options.undefined[..i])
      invariant Knows(values, options.defined, options.undefined[..i])
      invariant !Conflict(options.defined, options.undefined[..i])
    {
      var name := SymbolOf(options.undefined[i]);
      if name.None? {
        return Fail(InvalidSymbol);
      }
      MentionsMore(options.undefined, i);
      if name.value in values && values[name.value] {
        assert Mentions(options.defined, name.value) && Mentions(options.undefined, name.value);
        return Fail(ConflictingSymbol);
      }
      values := values[name.value := false];
      i := i + 1;
    }
    assert options.undefined[..i] == options.undefined;
    r := Done(Symbols(values, options.completeness));
  }

  lemma MentionsMore(names: seq<Bytes>, i: nat)
    requires i < |names|
    ensures forall n :: Mentions(names[..i + 1], n) <==> Mentions(names[..i], n) || SymbolOf(names[i]) == Some(n)
    ensures SymbolOf(names[i]).Some? ==> Mentions(names, SymbolOf(names[i]).value)
  {
    hide SymbolOf;
    forall n ensures Mentions(names[..i + 1], n) <==> Mentions(names[..i], n) || SymbolOf(names[i]) == Some(n) {
      if Mentions(names[..i], n) {
        var k :| 0 <= k < i && SymbolOf(names[..i][k]) == Some(n);
        assert names[..i + 1][k] == names[..i][k];
      }
      if Mentions(names[..i + 1], n) {
        var k :| 0 <= k < i + 1 && SymbolOf(names[..i + 1][k]) == Some(n);
        if k < i {
          assert names[..i][k] == names[..i + 1][k];
        }
      }
      assert names[..i + 1][i] == names[i];
    }
  }

  // ---- Include bindings

  predicate IsInclude(item: Item, range: Range) {
    item.Directive? && item.range == range && item.reading.command == Done(Include)
  }

  ghost predicate IncludeAt(text: Text, range: Range) {
    text.items.Done? && exists i :: 0 <= i < |text.items.value| && IsInclude(text.items.value[i], range)
  }

  /** A binding joins an include directive of a loaded source to a loaded source. */
  ghost predicate BindingOk(texts: map<SourceId, Text>, b: Binding) {
    && b.source in texts && b.target in texts
    && b.range.Within(|texts[b.source].bytes|) && IncludeAt(texts[b.source], b.range)
  }

  function Key(b: Binding): (SourceId, Range) {
    (b.source, b.range)
  }

  /** The table holds exactly the bindings, and no directive is bound twice. */
  ghost predicate Bound(table: map<(SourceId, Range), SourceId>, bindings: seq<Binding>) {
    && (forall i :: 0 <= i < |bindings| ==> Key(bindings[i]) in table && table[Key(bindings[i])] == bindings[i].target)
    && (forall key :: key in table ==> exists i :: 0 <= i < |bindings| && Key(bindings[i]) == key)
  }

  ghost predicate BoundOnce(bindings: seq<Binding>) {
    forall i, j :: 0 <= i < j < |bindings| ==> Key(bindings[i]) != Key(bindings[j])
  }

  function BindingSources(bindings: seq<Binding>): set<SourceId> {
    set i | 0 <= i < |bindings| :: bindings[i].source
  }

  /** What splitting the sources of the bindings costs; each is split once. */
  function BindingCost(texts: map<SourceId, Text>, bindings: seq<Binding>, lexed: set<SourceId>): nat {
    if bindings == [] then 0
    else
      var n := |bindings| - 1;
      var id := bindings[n].source;
      BindingCost(texts, bindings[..n], lexed)
      + if id in lexed + BindingSources(bindings[..n]) || id !in texts then 0 else |texts[id].bytes|
  }

  lemma {:induction false} CostGrows(texts: map<SourceId, Text>, bindings: seq<Binding>, lexed: set<SourceId>, n: nat)
    requires n <= |bindings|
    ensures BindingCost(texts, bindings[..n], lexed) <= BindingCost(texts, bindings, lexed)
    decreases |bindings| - n
  {
    if n == |bindings| {
      assert bindings[..n] == bindings;
    } else {
      CostGrows(texts, bindings, lexed, n + 1);
      assert bindings[..n + 1][..n] == bindings[..n];
    }
  }

  lemma CostMore(texts: map<SourceId, Text>, bindings: seq<Binding>, lexed: set<SourceId>, i: nat)
    requires i < |bindings|
    ensures var id := bindings[i].source;
            BindingCost(texts, bindings[..i + 1], lexed) == BindingCost(texts, bindings[..i], lexed)
            + if id in lexed + BindingSources(bindings[..i]) || id !in texts then 0 else |texts[id].bytes|
    ensures BindingSources(bindings[..i + 1]) == BindingSources(bindings[..i]) + {bindings[i].source}
  {
    var front, all := bindings[..i], bindings[..i + 1];
    assert all[..i] == front && all[i] == bindings[i];
    forall id | id in BindingSources(front) + {bindings[i].source} ensures id in BindingSources(all) {
      if id in BindingSources(front) {
        var k :| 0 <= k < i && front[k].source == id;
        assert all[k] == front[k];
      } else {
        assert all[i].source == id;
      }
    }
  }

  lemma BoundMore(table: map<(SourceId, Range), SourceId>, bindings: seq<Binding>, i: nat)
    requires i < |bindings| && Bound(table, bindings[..i]) && Key(bindings[i]) !in table
    ensures Bound(table[Key(bindings[i]) := bindings[i].target], bindings[..i + 1])
  {
    var b := bindings[i];
    var front, all := bindings[..i], bindings[..i + 1];
    assert forall k :: 0 <= k < i ==> all[k] == front[k];
    var more := table[Key(b) := b.target];
    forall key | key in more ensures exists k :: 0 <= k < |all| && Key(all[k]) == key {
      if key in table {
        var k :| 0 <= k < |front| && Key(front[k]) == key;
        assert all[k] == front[k];
      } else {
        assert Key(all[i]) == key;
      }
    }
  }

  lemma OnceMore(table: map<(SourceId, Range), SourceId>, bindings: seq<Binding>, i: nat)
    requires i < |bindings| && Bound(table, bindings[..i]) && BoundOnce(bindings[..i])
    ensures if Key(bindings[i]) in table then !BoundOnce(bindings) else BoundOnce(bindings[..i + 1])
  {
    var front, all := bindings[..i], bindings[..i + 1];
    assert forall k :: 0 <= k < i ==> all[k] == front[k] == bindings[k];
    if Key(bindings[i]) in table {
      var k :| 0 <= k < |front| && Key(front[k]) == Key(bindings[i]);
      assert Key(bindings[k]) == Key(bindings[i]);
    }
  }

  method FindInclude(items: seq<Item>, range: Range) returns (found: bool)
    ensures found <==> exists i :: 0 <= i < |items| && IsInclude(items[i], range)
  {
    var i := 0;
    while i < |items|
      invariant 0 <= i <= |items| && forall k :: 0 <= k < i ==> !IsInclude(items[k], range)
    {
      if IsInclude(items[i], range) {
        return true;
      }
      i := i + 1;
    }
    found := false;
  }

  /** One binding on its own: nothing is wrong with it, or the first thing that is. */
  method CheckBinding(texts: map<SourceId, Text>, b: Binding) returns (fault: Option<Fault>)
    requires b.source in texts && b.range.Within(|texts[b.source].bytes|) && texts[b.source].items.Done?
    ensures fault.None? <==> BindingOk(texts, b)
  {
    var items := texts[b.source].items.value;
    var found := FindInclude(items, b.range);
    if !found {
      return Some(BindingNotInclude);
    }
    fault := if b.target in texts then None else Some(BindingTargetNotLoaded);
  }

  /** What has been charged and which sources have been split before the machine starts. */
  datatype Opening = Opening(usage: Usage, lexed: set<SourceId>)

  ghost predicate OpeningOk(texts: map<SourceId, Text>, o: Opening) {
    forall id :: id in o.lexed ==> id in texts && texts[id].items.Done?
  }

  method LexFirst(texts: map<SourceId, Text>, limits: Limits, id: SourceId, o: Opening) returns (r: Outcome<Opening>)
    requires id in texts && OpeningOk(texts, o)
    ensures r == if id in o.lexed then Done(o)
                 else if o.usage.work + |texts[id].bytes| > limits.work then Fail(BudgetExceeded(Work))
                 else if texts[id].items.Fail? then Fail(texts[id].items.fault)
                 else Done(Opening(o.usage.(work := o.usage.work + |texts[id].bytes|), o.lexed + {id}))
  {
    if id in o.lexed {
      return Done(o);
    }
    var spent := Spend(o.usage, limits, Work, |texts[id].bytes|);
    if spent.Fail? {
      return Fail(spent.fault);
    }
    if texts[id].items.Fail? {
      return Fail(texts[id].items.fault);
    }
    r := Done(Opening(spent.value, o.lexed + {id}));
  }

  /**
    The table of the bindings, exactly when each is in order, none is doubled and their sources can
    be split in time.
    */
  method ValidateBindings(texts: map<SourceId, Text>, limits: Limits, bindings: seq<Binding>, o: Opening)
    returns (r: Outcome<(map<(SourceId, Range), SourceId>, Opening)>)
    requires OpeningOk(texts, o) && o.usage.work <= limits.work
    ensures r.Done? <==>
              && (forall i :: 0 <= i < |bindings| ==> BindingOk(texts, bindings[i]))
              && BoundOnce(bindings) && o.usage.work + BindingCost(texts, bindings, o.lexed) <= limits.work
    ensures r.Done? ==>
              && Bound(r.value.0, bindings) && OpeningOk(texts, r.value.1)
              && r.value.1.lexed == o.lexed + BindingSources(bindings)
              && r.value.1.usage == o.usage.(work := o.usage.work + BindingCost(texts, bindings, o.lexed))
  {
    hide Bound, BoundOnce, BindingCost, BindingSources, BindingOk;
    var table: map<(SourceId, Range), SourceId> := map[];
    var opening := o;
    var i := 0;
    BindingsEmpty(texts, bindings, o.lexed);
    while i < |bindings|
      invariant 0 <= i <= |bindings| && Bound(table, bindings[..i]) && BoundOnce(bindings[..i])
      invariant forall k :: 0 <= k < i ==> BindingOk(texts, bindings[k])
      invariant OpeningOk(texts, opening) && opening.usage.work <= limits.work
      invariant opening.lexed == o.lexed + BindingSources(bindings[..i])
      invariant opening.usage == o.usage.(work := o.usage.work + BindingCost(texts, bindings[..i], o.lexed))
    {
      var b := bindings[i];
      CostMore(texts, bindings, o.lexed, i);
      CostGrows(texts, bindings, o.lexed, i + 1);
      BindingParts(texts, b);
      if b.source !in texts {
        return Fail(BindingSourceNotLoaded);
      }
      if !b.range.Within(|texts[b.source].bytes|) {
        return Fail(BindingOutOfBounds);
      }
      var lexed := LexFirst(texts, limits, b.source, opening);
      if lexed.Fail? {
        return Fail(lexed.fault);
      }
      opening := lexed.value;
      var fault := CheckBinding(texts, b);
      if fault.Some? {
        return Fail(fault.value);
      }
      OnceMore(table, bindings, i);
      if Key(b) in table {
        return Fail(DuplicateBinding);
      }
      BoundMore(table, bindings, i);
      table := table[Key(b) := b.target];
      i := i + 1;
    }
    assert bindings[..i] == bindings;
    r := Done((table, opening));
  }

  lemma BindingsEmpty(texts: map<SourceId, Text>, bindings: seq<Binding>, lexed: set<SourceId>)
    ensures Bound(map[], bindings[..0]) && BoundOnce(bindings[..0])
    ensures BindingCost(texts, bindings[..0], lexed) == 0 && BindingSources(bindings[..0]) == {}
  {}

  lemma BindingParts(texts: map<SourceId, Text>, b: Binding)
    ensures BindingOk(texts, b) ==>
            b.source in texts && b.range.Within(|texts[b.source].bytes|) && texts[b.source].items.Done?
  {}
}
