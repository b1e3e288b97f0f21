/** Whole runs of the preprocessor: they end, stay within their budgets and yield valid source maps. */
module PreparationRuns {
  import opened PascalSyntax
  import opened ByteText
  import opened ConditionExpressions
  import opened SourceMaps
  import opened Preprocessor
  import opened PreprocessorLaws

  // ---- Termination

  /** Items that the open frames have still to deal with, one more for closing each. */
  function ItemsLeft(p: Project, frames: seq<Frame>): nat
    requires forall i :: 0 <= i < |frames| ==> FrameOk(p, frames[i])
  {
    if frames == [] then 0
    else
      var n := |frames| - 1;
      assert FrameOk(p, frames[n]);
      ItemsLeft(p, frames[..n]) + (|p.texts[frames[n].source].items.value| - frames[n].next) + 1
  }

  lemma TopItems(p: Project, frames: seq<Frame>, f: Frame)
    requires (forall i :: 0 <= i < |frames| ==> FrameOk(p, frames[i])) && FrameOk(p, f)
    ensures forall i :: 0 <= i < |frames + [f]| ==> FrameOk(p, (frames + [f])[i])
    ensures ItemsLeft(p, frames + [f]) == ItemsLeft(p, frames) + (|p.texts[f.source].items.value| - f.next) + 1
  {
    assert (frames + [f])[..|frames|] == frames;
  }

  /** What a step does to the frames. */
  lemma StepFrames(p: Project, m: Machine)
    requires Sound(p, m) && m.frames != [] && m.chain != [] && FrameOk(p, Current(m)) && Step(p, m).Done?
    ensures var m1 := Step(p, m).value;
            var n := |m.frames| - 1;
            || m1.occurrences == m.occurrences + 1
            || (m1.occurrences == m.occurrences && m1.frames == m.frames[..n])
            || (m1.occurrences == m.occurrences && Current(m).next < |p.texts[Current(m).source].items.value|
                && m1.frames == m.frames[..n] + [Current(m).(next := Current(m).next + 1)])
  {
    hide Stacked, Recorded, Measured, Nested, Budgeted, OnText, OnDirective;
    var frame := Current(m);
    var text := p.texts[frame.source];
    if frame.next < |text.items.value| {
      var item := text.items.value[frame.next];
      assert ItemAt(text, frame.next);
      match item {
        case Plain(range) =>
          TextFrames(p, Advance(m), frame, range);
        case Directive(range, reading) =>
          DirectiveFrames(p, Advance(m), frame, range, reading);
      }
    }
  }

  lemma TextFrames(p: Project, m: Machine, frame: Frame, range: Range)
    requires frame.source in p.texts && range.Within(|p.texts[frame.source].bytes|) && OnText(p, m, frame, range).Done?
    ensures var m1 := OnText(p, m, frame, range).value;
            m1.frames == m.frames && m1.occurrences == m.occurrences
  {}

  lemma DirectiveFrames(p: Project, m: Machine, frame: Frame, range: Range, reading: Reading)
    requires frame.source in p.texts && range.Within(|p.texts[frame.source].bytes|)
    requires OnDirective(p, m, frame, range, reading).Done?
    ensures var m1 := OnDirective(p, m, frame, range, reading).value;
            m1.occurrences == m.occurrences + 1 || (m1.frames == m.frames && m1.occurrences == m.occurrences)
  {
    hide SpendAll, Decide;
  }

  /** A step opens one of the counted includes, or leaves fewer items to deal with. */
  lemma StepDecreases(p: Project, m: Machine)
    requires Sound(p, m) && m.frames != [] && m.chain != [] && FrameOk(p, Current(m)) && Step(p, m).Done?
    requires Sound(p, Step(p, m).value)
    ensures var m1 := Step(p, m).value;
            && (forall i :: 0 <= i < |m.frames| ==> FrameOk(p, m.frames[i]))
            && (forall i :: 0 <= i < |m1.frames| ==> FrameOk(p, m1.frames[i]))
            && (m1.occurrences == m.occurrences + 1
                || (m1.occurrences == m.occurrences && ItemsLeft(p, m1.frames) < ItemsLeft(p, m.frames)))
  {
    hide Step, Recorded, Measured, Nested, Budgeted, ItemsLeft, Stacked;
    StepFrames(p, m);
    var m1 := Step(p, m).value;
    var n := |m.frames| - 1;
    FramesFit(p, m);
    FramesFit(p, m1);
    assert m.frames == m.frames[..n] + [Current(m)];
    TopItems(p, m.frames[..n], Current(m));
    if m1.occurrences == m.occurrences && m1.frames != m.frames[..n] {
      assert FrameOk(p, m1.frames[n]);
      TopItems(p, m.frames[..n], Current(m).(next := Current(m).next + 1));
    }
  }

  // ---- Runs

  lemma Ready(p: Project, m: Machine)
    requires Sound(p, m) && m.frames != []
    ensures m.chain != [] && FrameOk(p, Current(m)) && (forall i :: 0 <= i < |m.frames| ==> FrameOk(p, m.frames[i]))
  {
    FramesFit(p, m);
  }

  ghost function LeftToDo(p: Project, m: Machine): nat
    requires Sound(p, m)
  {
    FramesFit(p, m);
    ItemsLeft(p, m.frames)
  }

  /** Step until no frame is open. */
  ghost function RunMachine(p: Project, m: Machine): Outcome<Machine>
    requires Sound(p, m)
    decreases p.limits.occurrences - m.occurrences, LeftToDo(p, m)
  {
    if m.frames == [] then Done(m)
    else
      Ready(p, m);
      var next := Step(p, m);
      if next.Fail? then next
      else
        StepSound(p, m);
        StepDecreases(p, m);
        RunMachine(p, next.value)
  }

  /** What is delivered: all groups closed, and something that is not blank. */
  ghost function Prepare(p: Project, m: Machine): Outcome<Machine>
    requires Sound(p, m)
  {
    var end := RunMachine(p, m);
    if end.Fail? then end
    else if end.value.conditionals != [] then Fail(MalformedNesting)
    else if !end.value.activeContent then Fail(NoCompleteContent)
    else end
  }

  lemma {:induction false} RunSound(p: Project, m: Machine)
    requires Sound(p, m) && RunMachine(p, m).Done?
    ensures Sound(p, RunMachine(p, m).value) && RunMachine(p, m).value.frames == []
    decreases p.limits.occurrences - m.occurrences, LeftToDo(p, m)
  {
    if m.frames != [] {
      Ready(p, m);
      StepSound(p, m);
      StepDecreases(p, m);
      RunSound(p, Step(p, m).value);
    }
  }

  // ---- The include chain

  /** Only loaded sources are open, each once, so includes nest no deeper than there are sources. */
  lemma ChainBounded(p: Project, m: Machine)
    requires Sound(p, m)
    ensures |m.frames| <= |p.texts|
    ensures forall i :: 0 <= i < |m.frames| ==> m.chain[i] == m.frames[i].source && m.frames[i].depth == i
  {
    forall i | 0 <= i < |m.frames|
      ensures m.chain[i] == m.frames[i].source && m.chain[i] in p.texts && m.frames[i].depth == i {
      assert FrameIn(p, m, i);
    }
    DistinctBounded(m.chain, p.texts.Keys);
  }

  lemma {:induction false} DistinctBounded(ids: seq<SourceId>, all: set<SourceId>)
    requires (forall i :: 0 <= i < |ids| ==> ids[i] in all) && forall i, j :: 0 <= i < j < |ids| ==> ids[i] != ids[j]
    ensures |ids| <= |all|
    decreases |ids|
  {
    if ids != [] {
      var n := |ids| - 1;
      forall i | 0 <= i < n ensures ids[..n][i] in all - {ids[n]} {
        assert ids[i] != ids[n];
      }
      DistinctBounded(ids[..n], all - {ids[n]});
    }
  }

  // ---- The source map

  /** The snapshots list exactly the sources that the machine reads. */
  ghost predicate Lists(sources: seq<Snapshot>, p: Project) {
    && (forall i, j :: 0 <= i < j < |sources| ==> sources[i].id != sources[j].id)
    && forall id :: id in p.texts ==> exists k :: 0 <= k < |sources| && sources[k] == Snapshot(id, p.texts[id].bytes)
  }

  lemma PieceValid(p: Project, output: Bytes, sources: seq<Snapshot>, s: Segment)
    requires Lists(sources, p) && PieceOk(p, output, s)
    ensures SegmentOk(output, sources, s)
  {
    if !s.kind.Synthetic? {
      var id := s.original.value.source;
      var k :| 0 <= k < |sources| && sources[k] == Snapshot(id, p.texts[id].bytes);
      assert CopyOk(output, sources[k], s);
    }
  }

  ghost predicate AllNamed(sources: seq<Snapshot>) {
    forall i :: 0 <= i < |sources| ==> sources[i].id != ""
  }

  /** Whatever the machine has written, its segments form a valid map of it, unless a source has no name. */
  lemma SoundIsValid(p: Project, m: Machine, sources: seq<Snapshot>)
    requires Sound(p, m) && Lists(sources, p)
    ensures ValidMap(m.output, sources, m.segments) <==> AllNamed(sources)
  {
    hide Stacked, Measured, Nested, Contiguous, OriginsDisjoint, Behind;
    forall j | 0 <= j < |m.segments| ensures SegmentOk(m.output, sources, m.segments[j]) {
      PieceValid(p, m.output, sources, m.segments[j]);
    }
    forall i, j | 0 <= i < j < |m.segments| && SameExpansion(m.segments[i], m.segments[j])
      ensures m.segments[i].original.value.source == m.segments[j].original.value.source
    {
      assert Owned(m.owners, m.segments[i]) && Owned(m.owners, m.segments[j]);
    }
  }

  /** When the run is over, the output is as long as all expanded sources together with the added line breaks. */
  lemma OutputLength(p: Project, m: Machine)
    requires Sound(p, m) && m.frames == []
    ensures |m.output| == Total(p, m.owners) + Breaks(m.segments)
  {
    FramesFit(p, m);
  }

  // ---- Partial and complete environments

  /** The same machine, knowing more symbols. */
  ghost predicate Informed(m: Machine, m': Machine) {
    m' == m.(symbols := m'.symbols) && Extends(m.symbols, m'.symbols)
  }

  lemma InformedSound(p: Project, m: Machine, m': Machine)
    requires Sound(p, m) && Informed(m, m')
    ensures Sound(p, m')
  {
    hide Recorded, Nested, Remaining, Total;
    OtherStacked(p, m, m');
    OtherRecorded(p, m, m');
  }

  lemma DecideAgrees(condition: Code, a: Symbols, b: Symbols, looked: bool)
    requires Extends(a, b) && Decide(condition, a, looked).Done?
    ensures Decide(condition, b, looked) == Decide(condition, a, looked)
  {
    hide Evaluate;
    EvaluateBelow(condition, a, b);
  }

  lemma EffectAgrees(p: Project, m: Machine, m': Machine, command: Command)
    requires Informed(m, m') && Effect(p, m, command).Done?
    ensures Effect(p, m', command).Done? && Informed(Effect(p, m, command).value, Effect(p, m', command).value)
  {
    hide Decide, SetTop, Extends;
    match command
    case If(condition) => DecideAgrees(condition, m.symbols, m'.symbols, Active(m.conditionals));
    case ElseIf(condition) =>
      var c := m.conditionals[|m.conditionals| - 1];
      DecideAgrees(condition, m.symbols, m'.symbols, c.parentActive && !c.branchTaken);
    case Define(name) => SetExtends(m.symbols, m'.symbols, name, true);
    case Undef(name) => SetExtends(m.symbols, m'.symbols, name, false);
    case _ =>
  }

  lemma EmitAgrees(m: Machine, m': Machine, limits: Limits, frame: Frame, source: Bytes, range: Range, kind: Kind)
    requires Informed(m, m') && range.Within(|source|) && EmitPiece(m, limits, frame, source, range, kind).Done?
    ensures EmitPiece(m', limits, frame, source, range, kind).Done?
    ensures Informed(EmitPiece(m, limits, frame, source, range, kind).value,
                     EmitPiece(m', limits, frame, source, range, kind).value)
  {
    hide Extends;
  }

  lemma EnterAgrees(p: Project, m: Machine, m': Machine, frame: Frame, range: Range)
    requires Informed(m, m') && Enter(p, m, frame, range).Done?
    ensures Enter(p, m', frame, range).Done?
    ensures Informed(Enter(p, m, frame, range).value, Enter(p, m', frame, range).value)
  {
    hide Extends;
  }

  lemma CommandAgrees(p: Project, m: Machine, m': Machine, frame: Frame, range: Range, command: Command)
    requires frame.source in p.texts && range.Within(|p.texts[frame.source].bytes|) && Informed(m, m')
    requires OnCommand(p, m, frame, range, command).Done?
    ensures OnCommand(p, m', frame, range, command).Done?
    ensures Informed(OnCommand(p, m, frame, range, command).value, OnCommand(p, m', frame, range, command).value)
  {
    hide Extends, Effect, EmitPiece, Enter;
    EffectAgrees(p, m, m', command);
    var source := p.texts[frame.source].bytes;
    var done, done' := Effect(p, m, command).value, Effect(p, m', command).value;
    EmitAgrees(done, done', p.limits, frame, source, range, Masked);
    if command.Include? && Active(m.conditionals) {
      EnterAgrees(p, EmitPiece(done, p.limits, frame, source, range, Masked).value,
                  EmitPiece(done', p.limits, frame, source, range, Masked).value, frame, range);
    }
  }

  lemma StepAgrees(p: Project, m: Machine, m': Machine)
    requires Sound(p, m) && m.frames != [] && m.chain != [] && FrameOk(p, Current(m)) && Informed(m, m')
    requires Step(p, m).Done?
    ensures Step(p, m').Done? && Informed(Step(p, m).value, Step(p, m').value)
  {
    hide Stacked, Recorded, Measured, Nested, Budgeted, Extends, OnText, OnDirective;
    var frame := Current(m);
    var text := p.texts[frame.source];
    assert Current(m') == frame;
    if frame.next < |text.items.value| {
      assert ItemAt(text, frame.next);
      match text.items.value[frame.next] {
        case Plain(range) => TextAgrees(p, Advance(m), Advance(m'), frame, range);
        case Directive(range, reading) => DirectiveAgrees(p, Advance(m), Advance(m'), frame, range, reading);
      }
    }
  }

  lemma TextAgrees(p: Project, m: Machine, m': Machine, frame: Frame, range: Range)
    requires frame.source in p.texts && range.Within(|p.texts[frame.source].bytes|) && Informed(m, m')
    requires OnText(p, m, frame, range).Done?
    ensures OnText(p, m', frame, range).Done?
    ensures Informed(OnText(p, m, frame, range).value, OnText(p, m', frame, range).value)
  {
    hide Extends, HasContent;
  }

  lemma DirectiveAgrees(p: Project, m: Machine, m': Machine, frame: Frame, range: Range, reading: Reading)
    requires frame.source in p.texts && range.Within(|p.texts[frame.source].bytes|) && Informed(m, m')
    requires OnDirective(p, m, frame, range, reading).Done?
    ensures OnDirective(p, m', frame, range, reading).Done?
    ensures Informed(OnDirective(p, m, frame, range, reading).value, OnDirective(p, m', frame, range, reading).value)
  {
    hide Extends, OnCommand, SpendAll;
    var charges := [(DirectiveCount, 1), (Work, range.Length() as nat)] + reading.charges;
    var usage := SpendAll(m.usage, p.limits, charges).value;
    CommandAgrees(p, m.(usage := usage), m'.(usage := usage), frame, range, reading.command.value);
  }

  lemma {:induction false} RunAgrees(p: Project, m: Machine, m': Machine)
    requires Sound(p, m) && Sound(p, m') && Informed(m, m') && RunMachine(p, m).Done?
    ensures RunMachine(p, m').Done? && Informed(RunMachine(p, m).value, RunMachine(p, m').value)
    decreases p.limits.occurrences - m.occurrences, LeftToDo(p, m)
  {
    if m.frames != [] {
      Ready(p, m);
      StepAgrees(p, m, m');
      StepSound(p, m);
      StepDecreases(p, m);
      InformedSound(p, Step(p, m).value, Step(p, m').value);
      RunAgrees(p, Step(p, m).value, Step(p, m').value);
    }
  }

  /** Every choice of the symbols that a partial environment leaves open. */
  ghost predicate Completes(partial: Symbols, complete: Symbols) {
    && partial.completeness.Partial? && complete.completeness.Complete?
    && forall n :: n in partial.values ==> n in complete.values && complete.values[n] == partial.values[n]
  }

  /** A preparation that succeeds without all symbols gives the same bytes and segments however they are chosen. */
  lemma PartialAgreesWithComplete(
    p: Project, root: SourceId, usage: Usage, lexed: set<SourceId>, partial: Symbols, complete: Symbols)
    requires Sound(p, Start(root, partial, usage, lexed)) && Sound(p, Start(root, complete, usage, lexed))
    requires Completes(partial, complete) && Prepare(p, Start(root, partial, usage, lexed)).Done?
    ensures var a := Prepare(p, Start(root, partial, usage, lexed));
            var b := Prepare(p, Start(root, complete, usage, lexed));
            && b.Done? && b.value.output == a.value.output && b.value.segments == a.value.segments
            && b.value == a.value.(symbols := b.value.symbols)
  {
    hide Sound;
    RunAgrees(p, Start(root, partial, usage, lexed), Start(root, complete, usage, lexed));
  }
}
