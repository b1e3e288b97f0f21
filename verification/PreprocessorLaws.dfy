/** What every step of the preprocessor keeps. */
module PreprocessorLaws {
  import opened PascalSyntax
  import opened ByteText
  import opened ConditionExpressions
  import opened SourceMaps
  import opened Preprocessor

  // ---- Invariants

  /** The include occurrence that an expansion belongs to; the root is number 0. */
  function Number(e: ExpansionId): nat {
    if e.NoExpansion? || e.path == [] then 0 else e.path[|e.path| - 1]
  }

  ghost predicate FrameIn(p: Project, m: Machine, i: nat)
    requires i < |m.frames| && |m.frames| == |m.chain|
  {
    var f := m.frames[i];
    && FrameOk(p, f)
    && m.chain[i] == f.source
    && f.depth == i
    && f.outputStart <= |m.output|
    && f.expansion.Expansion? && Number(f.expansion) < |m.owners|
    && m.owners[Number(f.expansion)] == f.source
  }

  /** The include chain is the frame stack; no source is open twice; every expansion is one occurrence. */
  ghost predicate Stacked(p: Project, m: Machine) {
    && |m.frames| == |m.chain|
    && (forall i :: 0 <= i < |m.frames| ==> FrameIn(p, m, i))
    && (forall i, j :: 0 <= i < j < |m.chain| ==> m.chain[i] != m.chain[j])
    && (forall i, j :: 0 <= i < j < |m.frames| ==> Number(m.frames[i].expansion) != Number(m.frames[j].expansion))
    && |m.owners| == m.occurrences + 1
    && (forall k :: 0 <= k < |m.owners| ==> Loaded(p, m.owners[k]))
    && (forall id :: id in m.lexed ==> Loaded(p, id))
  }

  /** The parent of an open group is the group around it; a live branch has a live parent and is taken. */
  ghost predicate Nested(cs: seq<Conditional>) {
    forall i :: 0 <= i < |cs| ==> Consistent(cs, i)
  }

  ghost predicate Consistent(cs: seq<Conditional>, i: nat)
    requires i < |cs|
  {
    && cs[i].parentActive == Active(cs[..i])
    && (cs[i].currentActive ==> cs[i].parentActive && cs[i].branchTaken)
    && (cs[i].sawElse ==> cs[i].branchTaken)
  }

  ghost predicate PieceOk(p: Project, output: Bytes, s: Segment) {
    && s.expansion.Expansion? && s.prepared.Within(|output|)
    && (if s.kind.Synthetic? then s.original.None?
        else s.original.Some? && s.original.value.source in p.texts
             && CopyOk(output, Snapshot(s.original.value.source, p.texts[s.original.value.source].bytes), s))
  }

  ghost predicate Owned(owners: seq<SourceId>, s: Segment) {
    s.original.Some? ==> Number(s.expansion) < |owners| && owners[Number(s.expansion)] == s.original.value.source
  }

  /** Where a frame stands in its source. */
  function FrameAt(p: Project, f: Frame): nat
    requires FrameOk(p, f)
  {
    Position(p.texts[f.source], f.next)
  }

  ghost predicate Behind(p: Project, f: Frame, s: Segment)
    requires FrameOk(p, f)
  {
    s.original.Some? && s.expansion == f.expansion ==> s.original.value.range.end <= FrameAt(p, f)
  }

  /** The segments tile the output, say truly where it came from, and claim no byte twice. */
  ghost predicate Recorded(p: Project, m: Machine) {
    && Contiguous(m.segments)
    && CoveredTo(m.segments, |m.segments|) == |m.output|
    && (forall j :: 0 <= j < |m.segments| ==> PieceOk(p, m.output, m.segments[j]))
    && (forall j :: 0 <= j < |m.segments| ==> Owned(m.owners, m.segments[j]))
    && OriginsDisjoint(m.segments)
    && (forall i, j :: 0 <= i < |m.frames| && 0 <= j < |m.segments| && FrameOk(p, m.frames[i]) ==>
       Behind(p, m.frames[i], m.segments[j]))
  }

  /** Bytes that the open frames have still to give. */
  function Remaining(p: Project, frames: seq<Frame>): nat
    requires ProjectOk(p) && forall i :: 0 <= i < |frames| ==> FrameOk(p, frames[i])
  {
    if frames == [] then 0
    else
      var n := |frames| - 1;
      var f := frames[n];
      assert FrameOk(p, frames[n]);
      PositionBound(p.texts[f.source], f.next);
      Remaining(p, frames[..n]) + (|p.texts[f.source].bytes| - FrameAt(p, f))
  }

  lemma {:induction false} PositionBound(text: Text, i: nat)
    requires Lexes(text) && text.items.Done? && i <= |text.items.value|
    ensures Position(text, i) <= |text.bytes|
  {
    if i > 0 {
      assert ItemAt(text, i - 1);
    }
  }

  function Total(p: Project, owners: seq<SourceId>): nat
    requires forall k :: 0 <= k < |owners| ==> Loaded(p, owners[k])
  {
    if owners == [] then 0
    else
      assert Loaded(p, owners[|owners| - 1]);
      Total(p, owners[..|owners| - 1]) + |p.texts[owners[|owners| - 1]].bytes|
  }

  function Breaks(segments: seq<Segment>): nat {
    if segments == [] then 0
    else Breaks(segments[..|segments| - 1]) + if segments[|segments| - 1].kind.Synthetic? then 1 else 0
  }

  /** The output is everything expanded so far, less what is still to come, plus the added line breaks. */
  ghost predicate Measured(p: Project, m: Machine)
    requires ProjectOk(p) && Stacked(p, m)
  {
    FramesFit(p, m);
    |m.output| + Remaining(p, m.frames) == Total(p, m.owners) + Breaks(m.segments)
  }

  lemma FramesFit(p: Project, m: Machine)
    requires Stacked(p, m)
    ensures forall i :: 0 <= i < |m.frames| ==> FrameOk(p, m.frames[i])
  {
    forall i | 0 <= i < |m.frames| ensures FrameOk(p, m.frames[i]) {
      assert FrameIn(p, m, i);
    }
  }

  predicate UsageOk(u: Usage, limits: Limits) {
    u.work <= limits.work && u.directives <= limits.directives
    && u.expressionBytes <= limits.expressionBytes && u.expressionTokens <= limits.expressionTokens
  }

  /** No counter, stack or buffer is beyond its limit. */
  ghost predicate Budgeted(p: Project, m: Machine) {
    && UsageOk(m.usage, p.limits)
    && |m.output| <= p.limits.outputBytes
    && |m.conditionals| <= p.limits.conditionalDepth
    && |m.frames| <= p.limits.includeDepth + 1
    && m.occurrences <= p.limits.occurrences
  }

  ghost predicate Sound(p: Project, m: Machine) {
    && ProjectOk(p)
    && Stacked(p, m)
    && Nested(m.conditionals)
    && Recorded(p, m)
    && Measured(p, m)
    && Budgeted(p, m)
  }

  // ---- Budgets

  lemma SpendOk(u: Usage, limits: Limits, budget: Budget, amount: nat)
    requires UsageOk(u, limits) && Spend(u, limits, budget, amount).Done?
    ensures UsageOk(Spend(u, limits, budget, amount).value, limits)
  {}

  /** What is charged to one budget altogether. */
  function Charged(charges: seq<(Budget, nat)>, budget: Budget): nat {
    if charges == [] then 0
    else (if charges[0].0 == budget then charges[0].1 else 0) + Charged(charges[1..], budget)
  }

  function AfterCharges(u: Usage, charges: seq<(Budget, nat)>): Usage {
    Usage(u.work + Charged(charges, Work), u.directives + Charged(charges, DirectiveCount),
          u.expressionBytes + Charged(charges, ExpressionBytes),
              u.expressionTokens + Charged(charges, ExpressionTokens))
  }

  /** Charges go through one after the other exactly when their sums are within the limits, and then nothing is lost. */
  lemma {:induction false} SpendAllExact(u: Usage, limits: Limits, charges: seq<(Budget, nat)>)
    requires UsageOk(u, limits)
    ensures SpendAll(u, limits, charges).Done? <==> UsageOk(AfterCharges(u, charges), limits)
    ensures SpendAll(u, limits, charges).Done? ==> SpendAll(u, limits, charges).value == AfterCharges(u, charges)
    decreases |charges|
  {
    if charges != [] {
      var first := Spend(u, limits, charges[0].0, charges[0].1);
      if first.Done? {
        SpendOk(u, limits, charges[0].0, charges[0].1);
        SpendAllExact(first.value, limits, charges[1..]);
      }
    }
  }

  // ---- Conditionals

  lemma NestedPrefix(cs: seq<Conditional>, n: nat)
    requires Nested(cs) && n <= |cs|
    ensures Nested(cs[..n])
  {
    forall i | 0 <= i < n ensures Consistent(cs[..n], i) {
      assert Consistent(cs, i);
      assert cs[..n][..i] == cs[..i];
    }
  }

  lemma NestedPush(cs: seq<Conditional>, c: Conditional)
    requires Nested(cs) && c.parentActive == Active(cs)
    requires (c.currentActive ==> c.parentActive && c.branchTaken) && (c.sawElse ==> c.branchTaken)
    ensures Nested(cs + [c])
  {
    var all := cs + [c];
    forall i | 0 <= i < |all| ensures Consistent(all, i) {
      assert all[..i] == if i < |cs| then cs[..i] else cs;
      if i < |cs| {
        assert Consistent(cs, i);
      }
    }
  }

  lemma NestedTop(cs: seq<Conditional>, c: Conditional)
    requires Nested(cs) && cs != [] && c.parentActive == cs[|cs| - 1].parentActive
    requires (c.currentActive ==> c.parentActive && c.branchTaken) && (c.sawElse ==> c.branchTaken)
    ensures Nested(SetTop(cs, c))
  {
    var n := |cs| - 1;
    assert Consistent(cs, n);
    NestedPrefix(cs, n);
    NestedPush(cs[..n], c);
  }

  /** Text is live exactly when every open group is in its chosen branch. */
  lemma {:induction false} LiveMeansAllChosen(cs: seq<Conditional>)
    requires Nested(cs)
    ensures Active(cs) <==> forall i :: 0 <= i < |cs| ==> cs[i].currentActive
    decreases |cs|
  {
    if cs != [] {
      var n := |cs| - 1;
      assert Consistent(cs, n);
      NestedPrefix(cs, n);
      LiveMeansAllChosen(cs[..n]);
      if Active(cs) {
        forall i | 0 <= i < |cs| ensures cs[i].currentActive {
          if i < n {
            assert cs[..n][i] == cs[i];
          }
        }
      }
    }
  }

  // ---- Consuming an item

  /** The same stack and the same record. */
  ghost predicate SameRecord(m: Machine, m1: Machine) {
    m1 == m.(usage := m1.usage, conditionals := m1.conditionals, symbols := m1.symbols,
             activeContent := m1.activeContent)
  }

  ghost predicate AtItem(p: Project, m: Machine, range: Range) {
    && m.frames != []
    && FrameOk(p, Current(m))
    && Current(m).next < |p.texts[Current(m).source].items.value|
    && range == p.texts[Current(m).source].items.value[Current(m).next].range
  }

  /** The item's bytes, copied or blanked, at the end of the output. */
  function Consumed(p: Project, m: Machine, range: Range, kind: Kind): Machine
    requires m.frames != [] && Current(m).source in p.texts && range.Within(|p.texts[Current(m).source].bytes|)
  {
    var f := Current(m);
    var source := p.texts[f.source].bytes;
    var bytes := if kind.Copied? then Slice(source, range) else Mask(Slice(source, range));
    var segment := Segment(Range(|m.output|, |m.output| + |bytes|), Some(Span(f.source, range)), f.expansion, kind);
    Advance(m).(output := m.output + bytes, segments := m.segments + [segment])
  }

  lemma ItemRange(p: Project, m: Machine, range: Range)
    requires ProjectOk(p) && AtItem(p, m, range)
    ensures range.Within(|p.texts[Current(m).source].bytes|) && range.start < range.end
    ensures range.start == FrameAt(p, Current(m))
    ensures range.end == Position(p.texts[Current(m).source], Current(m).next + 1)
  {
    assert ItemAt(p.texts[Current(m).source], Current(m).next);
  }

  lemma AdvancedStacked(p: Project, m: Machine, m1: Machine)
    requires Stacked(p, m) && m.frames != [] && FrameOk(p, Current(m))
    requires Current(m).next < |p.texts[Current(m).source].items.value|
    requires m1 == Advance(m).(output := m1.output, segments := m1.segments) && |m1.output| >= |m.output|
    ensures Stacked(p, m1)
  {
    var n := |m.frames| - 1;
    forall i | 0 <= i < |m1.frames| ensures FrameIn(p, m1, i) {
      assert FrameIn(p, m, i);
    }
    forall i, j | 0 <= i < j < |m1.frames| ensures Number(m1.frames[i].expansion) != Number(m1.frames[j].expansion) {
      assert Number(m.frames[i].expansion) != Number(m.frames[j].expansion);
    }
  }

  lemma OtherStacked(p: Project, m: Machine, m1: Machine)
    requires Stacked(p, m) && SameRecord(m, m1)
    ensures Stacked(p, m1)
  {
    forall i | 0 <= i < |m1.frames| ensures FrameIn(p, m1, i) {
      assert FrameIn(p, m, i);
    }
  }

  lemma OtherRecorded(p: Project, m: Machine, m1: Machine)
    requires Recorded(p, m) && SameRecord(m, m1)
    ensures Recorded(p, m1)
  {}

  /** Bytes already written stay as they are. */
  lemma PieceKept(p: Project, output: Bytes, more: Bytes, s: Segment)
    requires PieceOk(p, output, s)
    ensures PieceOk(p, output + more, s)
  {
    assert (output + more)[s.prepared.start..s.prepared.end] == output[s.prepared.start..s.prepared.end];
  }

  lemma MaskFits(s: Bytes)
    ensures MaskOf(Mask(s), s)
  {}

  lemma NewPiece(p: Project, output: Bytes, source: SourceId, range: Range, expansion: ExpansionId, kind: Kind)
    requires source in p.texts && range.Within(|p.texts[source].bytes|) && range.start < range.end && !kind.Synthetic?
    requires expansion.Expansion?
    ensures var original := Slice(p.texts[source].bytes, range);
            var bytes := if kind.Copied? then original else Mask(original);
            PieceOk(p, output + bytes,
                    Segment(Range(|output|, |output| + |bytes|), Some(Span(source, range)), expansion, kind))
  {
    var original := Slice(p.texts[source].bytes, range);
    var bytes := if kind.Copied? then original else Mask(original);
    assert (output + bytes)[|output|..|output| + |bytes|] == bytes;
    MaskFits(original);
  }

  lemma ContiguousAppend(segments: seq<Segment>, s: Segment)
    requires Contiguous(segments) && s.prepared.start == CoveredTo(segments, |segments|)
    requires s.prepared.start < s.prepared.end
    ensures Contiguous(segments + [s]) && CoveredTo(segments + [s], |segments| + 1) == s.prepared.end
  {
    var all := segments + [s];
    CoveredPrefix(all, |segments|);
    assert all[..|segments|] == segments && all[..|segments| + 1] == all;
    assert CoveredTo(all, |segments|) == CoveredTo(segments, |segments|);
  }

  lemma ConsumedPieces(p: Project, m: Machine, range: Range, kind: Kind)
    requires Stacked(p, m) && Recorded(p, m) && AtItem(p, m, range) && !kind.Synthetic?
    requires range.Within(|p.texts[Current(m).source].bytes|) && range.start < range.end
    ensures var m2 := Consumed(p, m, range, kind);
            forall j :: 0 <= j < |m2.segments| ==> PieceOk(p, m2.output, m2.segments[j])
  {
    hide Behind, Owned, OriginsDisjoint, Contiguous, CopyOk;
    var f := Current(m);
    var m2 := Consumed(p, m, range, kind);
    assert FrameIn(p, m, |m.frames| - 1);
    NewPiece(p, m.output, f.source, range, f.expansion, kind);
    hide PieceOk;
    var bytes := m2.output[|m.output|..];
    assert m2.output == m.output + bytes;
    forall j | 0 <= j < |m2.segments| ensures PieceOk(p, m2.output, m2.segments[j]) {
      if j < |m.segments| {
        PieceKept(p, m.output, bytes, m.segments[j]);
      }
    }
  }

  /** The new piece comes after everything that its expansion gave before. */
  lemma ConsumedApart(p: Project, m: Machine, range: Range, kind: Kind)
    requires ProjectOk(p) && Stacked(p, m) && Recorded(p, m) && AtItem(p, m, range) && !kind.Synthetic?
    requires range.Within(|p.texts[Current(m).source].bytes|)
    ensures OriginsDisjoint(Consumed(p, m, range, kind).segments)
  {
    hide PieceOk, Contiguous, Owned, Mask;
    var n := |m.frames| - 1;
    var s := Consumed(p, m, range, kind).segments[|m.segments|];
    ItemRange(p, m, range);
    assert FrameIn(p, m, n);
    forall j | 0 <= j < |m.segments| ensures !ClaimTwice(m.segments[j], s) {
      assert Behind(p, m.frames[n], m.segments[j]);
    }
    DisjointLast(m.segments, s);
  }

  lemma ConsumedBehind(p: Project, m: Machine, range: Range, kind: Kind, i: nat, j: nat)
    requires ProjectOk(p) && Stacked(p, m) && Recorded(p, m) && AtItem(p, m, range) && !kind.Synthetic?
    requires range.Within(|p.texts[Current(m).source].bytes|)
    requires var m2 := Consumed(p, m, range, kind); i < |m2.frames| && j < |m2.segments| && FrameOk(p, m2.frames[i])
    ensures Behind(p, Consumed(p, m, range, kind).frames[i], Consumed(p, m, range, kind).segments[j])
  {
    hide PieceOk, Contiguous, Owned, OriginsDisjoint, Mask;
    var n := |m.frames| - 1;
    ItemRange(p, m, range);
    assert FrameIn(p, m, i) && FrameIn(p, m, n);
    if i < n {
      assert j < |m.segments| ==> Behind(p, m.frames[i], m.segments[j]);
      assert Number(m.frames[i].expansion) != Number(m.frames[n].expansion);
    } else if j < |m.segments| {
      assert Behind(p, m.frames[n], m.segments[j]);
    }
  }

  lemma ConsumedRecorded(p: Project, m: Machine, range: Range, kind: Kind)
    requires ProjectOk(p) && Stacked(p, m) && Recorded(p, m) && AtItem(p, m, range) && !kind.Synthetic?
    requires range.Within(|p.texts[Current(m).source].bytes|)
    ensures Recorded(p, Consumed(p, m, range, kind))
  {
    hide PieceOk, Contiguous, OriginsDisjoint, Behind;
    var m2 := Consumed(p, m, range, kind);
    ItemRange(p, m, range);
    assert FrameIn(p, m, |m.frames| - 1);
    ConsumedPieces(p, m, range, kind);
    ContiguousAppend(m.segments, m2.segments[|m.segments|]);
    ConsumedApart(p, m, range, kind);
    forall j | 0 <= j < |m2.segments| ensures Owned(m2.owners, m2.segments[j]) {
      assert j < |m.segments| ==> Owned(m.owners, m.segments[j]);
    }
    forall i, j | 0 <= i < |m2.frames| && 0 <= j < |m2.segments| && FrameOk(p, m2.frames[i])
      ensures Behind(p, m2.frames[i], m2.segments[j]) {
      ConsumedBehind(p, m, range, kind, i, j);
    }
  }

  lemma TopRemaining(p: Project, frames: seq<Frame>, f: Frame)
    requires ProjectOk(p) && (forall i :: 0 <= i < |frames| ==> FrameOk(p, frames[i])) && FrameOk(p, f)
    ensures (forall i :: 0 <= i < |frames + [f]| ==> FrameOk(p, (frames + [f])[i]))
    ensures FrameAt(p, f) <= |p.texts[f.source].bytes|
    ensures Remaining(p, frames + [f]) == Remaining(p, frames) + (|p.texts[f.source].bytes| - FrameAt(p, f))
  {
    assert (frames + [f])[..|frames|] == frames;
    PositionBound(p.texts[f.source], f.next);
  }

  lemma ConsumedMeasured(p: Project, m: Machine, range: Range, kind: Kind)
    requires ProjectOk(p) && Stacked(p, m) && Measured(p, m) && AtItem(p, m, range) && !kind.Synthetic?
    requires range.Within(|p.texts[Current(m).source].bytes|) && Stacked(p, Consumed(p, m, range, kind))
    ensures Measured(p, Consumed(p, m, range, kind))
  {
    var f := Current(m);
    var n := |m.frames| - 1;
    var m2 := Consumed(p, m, range, kind);
    ItemRange(p, m, range);
    FramesFit(p, m);
    FramesFit(p, m2);
    assert m.frames == m.frames[..n] + [f];
    assert m2.frames == m.frames[..n] + [f.(next := f.next + 1)];
    TopRemaining(p, m.frames[..n], f);
    TopRemaining(p, m.frames[..n], f.(next := f.next + 1));
    assert m2.segments[..|m.segments|] == m.segments;
    hide Remaining, Total, Recorded, Stacked;
    assert |m2.output| == |m.output| + (range.end - range.start);
  }

  /** One item is consumed and the record stays sound. */
  lemma ConsumedSound(p: Project, m: Machine, m1: Machine, range: Range, kind: Kind)
    requires Sound(p, m) && AtItem(p, m, range) && !kind.Synthetic? && range.Within(|p.texts[Current(m).source].bytes|)
    requires SameRecord(Consumed(p, m, range, kind), m1) && Nested(m1.conditionals) && UsageOk(m1.usage, p.limits)
    requires |m1.output| <= p.limits.outputBytes && |m1.conditionals| <= p.limits.conditionalDepth
    ensures Sound(p, m1)
  {
    hide Recorded, Nested, Remaining, Total;
    var m2 := Consumed(p, m, range, kind);
    AdvancedStacked(p, m, m2);
    ConsumedRecorded(p, m, range, kind);
    ConsumedMeasured(p, m, range, kind);
    OtherStacked(p, m2, m1);
    OtherRecorded(p, m2, m1);
  }

  // ---- Text and directives

  /** Emitting the current item after other changes is consuming it. */
  lemma EmitConsumes(p: Project, m: Machine, m1: Machine, range: Range, kind: Kind)
    requires AtItem(p, m, range) && range.Within(|p.texts[Current(m).source].bytes|) && SameRecord(Advance(m), m1)
    requires EmitPiece(m1, p.limits, Current(m), p.texts[Current(m).source].bytes, range, kind).Done?
    ensures var m2 := EmitPiece(m1, p.limits, Current(m), p.texts[Current(m).source].bytes, range, kind).value;
            && SameRecord(Consumed(p, m, range, kind), m2) && |m2.output| <= p.limits.outputBytes
            && m2.conditionals == m1.conditionals && m2.usage == m1.usage && m2.symbols == m1.symbols
  {}

  lemma TextSound(p: Project, m: Machine, range: Range)
    requires Sound(p, m) && AtItem(p, m, range) && range.Within(|p.texts[Current(m).source].bytes|)
    requires OnText(p, Advance(m), Current(m), range).Done?
    ensures Sound(p, OnText(p, Advance(m), Current(m), range).value)
  {
    hide Stacked, Recorded, Measured, Nested, EmitPiece;
    var source := p.texts[Current(m).source].bytes;
    var usage := Spend(m.usage, p.limits, Work, range.Length()).value;
    SpendOk(m.usage, p.limits, Work, range.Length());
    var m1 := Advance(m).(usage := usage);
    if Active(m.conditionals) {
      var m2 := m1.(activeContent := m.activeContent || HasContent(Slice(source, range)));
      EmitConsumes(p, m, m2, range, Copied);
      ConsumedSound(p, m, EmitPiece(m2, p.limits, Current(m), source, range, Copied).value, range, Copied);
    } else {
      EmitConsumes(p, m, m1, range, Masked);
      ConsumedSound(p, m, EmitPiece(m1, p.limits, Current(m), source, range, Masked).value, range, Masked);
    }
  }

  /** The groups that a directive leaves open are again consistent. */
  lemma BranchNested(cs: seq<Conditional>, holds: bool)
    requires Nested(cs) && cs != []
    requires holds ==> cs[|cs| - 1].parentActive && !cs[|cs| - 1].branchTaken
    ensures !cs[|cs| - 1].sawElse ==> Nested(SetTop(cs, NextBranch(cs[|cs| - 1], holds)))
    ensures Nested(SetTop(cs, LastBranch(cs[|cs| - 1])))
    ensures Nested(cs[..|cs| - 1])
  {
    var c := cs[|cs| - 1];
    assert Consistent(cs, |cs| - 1);
    NestedTop(cs, LastBranch(c));
    NestedTop(cs, NextBranch(c, holds));
    NestedPrefix(cs, |cs| - 1);
  }

  lemma EffectNested(p: Project, m: Machine, command: Command)
    requires Nested(m.conditionals) && |m.conditionals| <= p.limits.conditionalDepth && Effect(p, m, command).Done?
    ensures var m1 := Effect(p, m, command).value;
            && m1 == m.(conditionals := m1.conditionals, symbols := m1.symbols)
            && Nested(m1.conditionals) && |m1.conditionals| <= p.limits.conditionalDepth
  {
    hide Evaluate;
    var cs := m.conditionals;
    match command
    case If(condition) =>
      NestedPush(cs, Opened(Active(cs), Decide(condition, m.symbols, Active(cs)).value));
    case ElseIf(condition) =>
      var c := cs[|cs| - 1];
      BranchNested(cs, Decide(condition, m.symbols, c.parentActive && !c.branchTaken).value);
    case Else => BranchNested(cs, false);
    case EndIf => BranchNested(cs, false);
    case _ =>
  }

  lemma EffectSound(p: Project, m: Machine, m1: Machine, range: Range, command: Command)
    requires Sound(p, m) && AtItem(p, m, range) && range.Within(|p.texts[Current(m).source].bytes|)
    requires m1 == Advance(m).(usage := m1.usage) && UsageOk(m1.usage, p.limits) && Effect(p, m1, command).Done?
    requires EmitPiece(Effect(p, m1, command).value, p.limits, Current(m), p.texts[Current(m).source].bytes, range,
                       Masked).Done?
    ensures Sound(p, EmitPiece(Effect(p, m1, command).value, p.limits, Current(m), p.texts[Current(m).source].bytes,
                               range, Masked).value)
  {
    hide Stacked, Recorded, Measured, Nested, EmitPiece, Effect;
    var m2 := Effect(p, m1, command).value;
    EffectNested(p, m1, command);
    EmitConsumes(p, m, m2, range, Masked);
    ConsumedSound(p, m, EmitPiece(m2, p.limits, Current(m), p.texts[Current(m).source].bytes, range, Masked).value,
                  range, Masked);
  }

  // ---- Opening and closing frames

  lemma LexedSound(p: Project, m: Machine, id: SourceId)
    requires Sound(p, m) && EnsureLexed(p, m, id).Done?
    ensures var m1 := EnsureLexed(p, m, id).value;
            Sound(p, m1) && Loaded(p, id) && m1 == m.(usage := m1.usage, lexed := m1.lexed)
  {
    hide Recorded, Nested, Remaining, Total;
    var m1 := EnsureLexed(p, m, id).value;
    if id !in m.lexed {
      SpendOk(m.usage, p.limits, Work, |p.texts[id].bytes|);
      forall i | 0 <= i < |m1.frames| ensures FrameIn(p, m1, i) {
        assert FrameIn(p, m, i);
      }
      LexedRecorded(p, m, m1);
    }
  }

  lemma LexedRecorded(p: Project, m: Machine, m1: Machine)
    requires Recorded(p, m) && m1 == m.(usage := m1.usage, lexed := m1.lexed)
    ensures Recorded(p, m1)
  {}

  function Pushed(m: Machine, frame: Frame): Machine {
    m.(frames := m.frames + [frame], chain := m.chain + [frame.source], occurrences := m.occurrences + 1,
       owners := m.owners + [frame.source])
  }

  lemma PushedStacked(p: Project, m: Machine, frame: Frame)
    requires Stacked(p, m) && Loaded(p, frame.source) && frame.source !in m.chain
    requires frame.next == 0 && frame.depth == |m.frames| && frame.outputStart == |m.output|
    requires Number(frame.expansion) == m.occurrences + 1
    ensures Stacked(p, Pushed(m, frame))
  {
    var m1 := Pushed(m, frame);
    var n := |m.frames|;
    forall i | 0 <= i < |m1.frames| ensures FrameIn(p, m1, i) {
      if i < n {
        assert FrameIn(p, m, i);
      }
    }
    forall i, j | 0 <= i < j < |m1.frames| ensures Number(m1.frames[i].expansion) != Number(m1.frames[j].expansion) {
      assert FrameIn(p, m, i);
      if j < n {
        assert Number(m.frames[i].expansion) != Number(m.frames[j].expansion);
      }
    }
    forall i, j | 0 <= i < j < |m1.chain| ensures m1.chain[i] != m1.chain[j] {
      if j == n {
        assert m.chain[i] in m.chain;
      }
    }
    forall k | 0 <= k < |m1.owners| ensures Loaded(p, m1.owners[k]) {
      assert k < |m.owners| ==> Loaded(p, m.owners[k]);
    }
  }

  lemma PushedRecorded(p: Project, m: Machine, frame: Frame)
    requires Stacked(p, m) && Recorded(p, m) && Number(frame.expansion) == m.occurrences + 1
    ensures Recorded(p, Pushed(m, frame))
  {
    hide PieceOk, Contiguous, OriginsDisjoint;
    var m1 := Pushed(m, frame);
    forall j | 0 <= j < |m1.segments| ensures Owned(m1.owners, m1.segments[j]) {
      assert Owned(m.owners, m.segments[j]);
    }
    forall i, j | 0 <= i < |m1.frames| && 0 <= j < |m1.segments| && FrameOk(p, m1.frames[i])
      ensures Behind(p, m1.frames[i], m1.segments[j]) {
      assert Owned(m.owners, m.segments[j]);
      if i < |m.frames| {
        assert Behind(p, m.frames[i], m.segments[j]);
      }
    }
  }

  lemma PushedMeasured(p: Project, m: Machine, frame: Frame)
    requires ProjectOk(p) && Stacked(p, m) && Measured(p, m) && Stacked(p, Pushed(m, frame)) && frame.next == 0
    requires FrameOk(p, frame)
    ensures Measured(p, Pushed(m, frame))
  {
    var m1 := Pushed(m, frame);
    FramesFit(p, m);
    FramesFit(p, m1);
    TopRemaining(p, m.frames, frame);
    assert m1.owners[..|m.owners|] == m.owners;
    hide Remaining, Stacked;
  }

  lemma EnterSound(p: Project, m: Machine, frame: Frame, range: Range)
    requires Sound(p, m) && m.frames != [] && frame.source == Current(m).source
    requires frame.expansion == Current(m).expansion
    requires frame.depth == Current(m).depth && Enter(p, m, frame, range).Done?
    ensures Sound(p, Enter(p, m, frame, range).value)
  {
    hide Recorded, Nested, Measured, EnsureLexed;
    var target := p.bindings[(frame.source, range)];
    var m1 := EnsureLexed(p, m, target).value;
    LexedSound(p, m, target);
    assert FrameIn(p, m, |m.frames| - 1);
    var f := Frame(target, frame.expansion.Child(m.occurrences + 1), 0, frame.depth + 1, |m1.output|);
    PushedStacked(p, m1, f);
    PushedRecorded(p, m1, f);
    PushedMeasured(p, m1, f);
    hide Stacked;
    assert Enter(p, m, frame, range).value == Pushed(m1, f);
  }

  lemma PoppedStacked(p: Project, m: Machine, m1: Machine)
    requires Stacked(p, m) && m.frames != []
    requires m1 == m.(frames := m.frames[..|m.frames| - 1], chain := m.chain[..|m.chain| - 1], usage := m1.usage,
                      output := m1.output, segments := m1.segments)
    requires |m1.output| >= |m.output|
    ensures Stacked(p, m1)
  {
    forall i | 0 <= i < |m1.frames| ensures FrameIn(p, m1, i) {
      assert FrameIn(p, m, i);
    }
    forall i, j | 0 <= i < j < |m1.frames| ensures Number(m1.frames[i].expansion) != Number(m1.frames[j].expansion) {
      assert Number(m.frames[i].expansion) != Number(m.frames[j].expansion);
    }
  }

  /** A line break of the machine's own claims no original byte. */
  lemma BreakRecorded(p: Project, m: Machine, m1: Machine, expansion: ExpansionId)
    requires Recorded(p, m)
    requires m1 == m.(frames := m1.frames, chain := m1.chain, usage := m1.usage, output := m.output + [LF],
                      segments := m.segments + [Segment(Range(|m.output|, |m.output| + 1), None, expansion, Synthetic)])
    requires m1.frames <= m.frames && expansion.Expansion?
    ensures Recorded(p, m1)
  {
    var k := |m.segments|;
    var s := m1.segments[k];
    ContiguousAppend(m.segments, s);
    forall j | 0 <= j < |m1.segments| ensures PieceOk(p, m1.output, m1.segments[j]) {
      if j < k {
        PieceKept(p, m.output, [LF], m.segments[j]);
      }
    }
    hide PieceOk, Contiguous;
    DisjointLast(m.segments, s);
    forall i, j | 0 <= i < |m1.frames| && 0 <= j < |m1.segments| && FrameOk(p, m1.frames[i])
      ensures Behind(p, m1.frames[i], m1.segments[j]) {
      assert j < k ==> Behind(p, m.frames[i], m.segments[j]);
    }
    forall j | 0 <= j < |m1.segments| ensures Owned(m1.owners, m1.segments[j]) {
      assert j < k ==> Owned(m.owners, m.segments[j]);
    }
  }

  lemma PoppedRecorded(p: Project, m: Machine, m1: Machine)
    requires Recorded(p, m) && m1 == m.(frames := m1.frames, chain := m1.chain) && m1.frames <= m.frames
    ensures Recorded(p, m1)
  {
    hide PieceOk, Contiguous, OriginsDisjoint, Owned;
    forall i, j | 0 <= i < |m1.frames| && 0 <= j < |m1.segments| && FrameOk(p, m1.frames[i])
      ensures Behind(p, m1.frames[i], m1.segments[j]) {
      assert Behind(p, m.frames[i], m.segments[j]);
    }
  }

  lemma PoppedMeasured(p: Project, m: Machine, m1: Machine)
    requires ProjectOk(p) && Stacked(p, m) && Measured(p, m) && Stacked(p, m1) && m.frames != []
    requires FrameOk(p, Current(m))
    requires Current(m).next == |p.texts[Current(m).source].items.value|
    requires m1.frames == m.frames[..|m.frames| - 1] && m1.owners == m.owners
    requires (m1.output == m.output && m1.segments == m.segments)
          || (|m1.output| == |m.output| + 1
              && exists s: Segment :: s.kind.Synthetic? && m1.segments == m.segments + [s])
    ensures Measured(p, m1)
  {
    var n := |m.frames| - 1;
    FramesFit(p, m);
    FramesFit(p, m1);
    assert m.frames == m.frames[..n] + [Current(m)];
    TopRemaining(p, m.frames[..n], Current(m));
    assert Lexes(p.texts[Current(m).source]);
    if m1.segments != m.segments {
      assert m1.segments[..|m.segments|] == m.segments;
    }
    hide Remaining, Total, Stacked;
  }

  lemma EndSound(p: Project, m: Machine)
    requires Sound(p, m) && m.frames != [] && FrameOk(p, Current(m))
    requires Current(m).next == |p.texts[Current(m).source].items.value|
    requires EndFrame(p, m).Done?
    ensures Sound(p, EndFrame(p, m).value)
  {
    hide Recorded, Nested, Measured;
    var frame := Current(m);
    var m1 := EndFrame(p, m).value;
    PoppedStacked(p, m, m1);
    assert FrameIn(p, m, |m.frames| - 1);
    hide Stacked;
    if m1.segments == m.segments && m1.output == m.output {
      PoppedRecorded(p, m, m1);
    } else {
      SpendOk(m.usage, p.limits, Work, 1);
      BreakRecorded(p, m, m1, frame.expansion);
    }
    PoppedMeasured(p, m, m1);
  }

  // ---- Steps

  lemma DirectiveSound(p: Project, m: Machine, range: Range, reading: Reading)
    requires Sound(p, m) && AtItem(p, m, range) && range.Within(|p.texts[Current(m).source].bytes|)
    requires OnDirective(p, Advance(m), Current(m), range, reading).Done?
    ensures Sound(p, OnDirective(p, Advance(m), Current(m), range, reading).value)
  {
    hide Stacked, Recorded, Measured, Nested, EmitPiece, Effect, Enter, Consumed;
    var frame := Current(m);
    var charges := [(DirectiveCount, 1), (Work, range.Length() as nat)] + reading.charges;
    SpendAllExact(m.usage, p.limits, charges);
    var m1 := Advance(m).(usage := SpendAll(m.usage, p.limits, charges).value);
    var command := reading.command.value;
    var done := Effect(p, m1, command).value;
    EffectSound(p, m, m1, range, command);
    EffectKeepsStack(p, m1, command);
    var masked := EmitPiece(done, p.limits, frame, p.texts[frame.source].bytes, range, Masked).value;
    EmitKeepsStack(done, p.limits, frame, p.texts[frame.source].bytes, range, Masked);
    if command.Include? && Active(m1.conditionals) {
      EnterSound(p, masked, frame, range);
    }
  }

  lemma EffectKeepsStack(p: Project, m: Machine, command: Command)
    requires Effect(p, m, command).Done?
    ensures Effect(p, m, command).value.frames == m.frames
  {}

  lemma EmitKeepsStack(m: Machine, limits: Limits, frame: Frame, source: Bytes, range: Range, kind: Kind)
    requires range.Within(|source|) && EmitPiece(m, limits, frame, source, range, kind).Done?
    ensures EmitPiece(m, limits, frame, source, range, kind).value.frames == m.frames
  {}

  /** Every step of the machine keeps its state sound. */
  lemma StepSound(p: Project, m: Machine)
    requires Sound(p, m) && m.frames != [] && m.chain != [] && FrameOk(p, Current(m)) && Step(p, m).Done?
    ensures Sound(p, Step(p, m).value)
  {
    hide Stacked, Recorded, Measured, Nested, EndFrame, OnText, OnDirective;
    var frame := Current(m);
    var text := p.texts[frame.source];
    if frame.next == |text.items.value| {
      EndSound(p, m);
    } else {
      var item := text.items.value[frame.next];
      ItemRange(p, m, item.range);
      match item {
        case Plain(range) => TextSound(p, m, range);
        case Directive(range, reading) => DirectiveSound(p, m, range, reading);
      }
    }
  }

  lemma StartSound(p: Project, root: SourceId, symbols: Symbols, usage: Usage, lexed: set<SourceId>)
    requires ProjectOk(p) && Loaded(p, root) && UsageOk(usage, p.limits) && forall id :: id in lexed ==> Loaded(p, id)
    ensures Sound(p, Start(root, symbols, usage, lexed))
  {
    var m := Start(root, symbols, usage, lexed);
    assert FrameIn(p, m, 0);
    assert Stacked(p, m);
    assert m.frames == [] + [m.frames[0]] && m.owners[..0] == [];
    TopRemaining(p, [], m.frames[0]);
    assert Total(p, m.owners) == |p.texts[root].bytes|;
    FramesFit(p, m);
    assert Measured(p, m);
  }
}
