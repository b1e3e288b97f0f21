/** The branches of a conditional group, and how they follow each other along a run. */
module BranchHistories {
  import opened PascalSyntax
  import opened ByteText
  import opened ConditionExpressions
  import opened SourceMaps
  import opened Preprocessor
  import opened PreprocessorLaws

  // ---- The branches of one group

  /** How a group goes on: with another branch, chosen only if none was before, or with its last. */
  ghost predicate Moves(c: Conditional, c': Conditional) {
    && !c.sawElse
    && (|| c' == LastBranch(c)
        || c' == NextBranch(c, false)
        || (c.parentActive && !c.branchTaken && c' == NextBranch(c, true)))
  }

  /** The branches of a group in order. */
  ghost predicate History(cs: seq<Conditional>) {
    && cs != []
    && cs[0] == Opened(cs[0].parentActive, cs[0].currentActive) && (cs[0].currentActive ==> cs[0].parentActive)
    && forall i :: 0 < i < |cs| ==> Moves(cs[i - 1], cs[i])
  }

  function LiveBranches(cs: seq<Conditional>): nat {
    if cs == [] then 0 else LiveBranches(cs[..|cs| - 1]) + if cs[|cs| - 1].currentActive then 1 else 0
  }

  /** A group has at most one live branch, exactly one when it has an ELSE in live text, and none in dead text. */
  lemma {:induction false} OneLiveBranch(cs: seq<Conditional>)
    requires History(cs)
    ensures var last := cs[|cs| - 1];
            && last.parentActive == cs[0].parentActive
            && LiveBranches(cs) == (if last.parentActive && last.branchTaken then 1 else 0)
            && (last.sawElse ==> last.branchTaken)
    decreases |cs|
  {
    var n := |cs| - 1;
    if n == 0 {
      assert cs[..0] == [];
    } else {
      assert cs[..n][n - 1] == cs[n - 1] && Moves(cs[n - 1], cs[n]);
      forall i | 0 < i < n ensures Moves(cs[..n][i - 1], cs[..n][i]) {
        assert Moves(cs[i - 1], cs[i]);
      }
      OneLiveBranch(cs[..n]);
    }
  }

  /** Every directive opens a group, moves the innermost one on, closes it, or leaves the groups alone. */
  lemma EffectMoves(p: Project, m: Machine, command: Command)
    requires Effect(p, m, command).Done?
    ensures var cs, cs' := m.conditionals, Effect(p, m, command).value.conditionals;
            || cs' == cs
            || (command.If? && exists c :: cs' == cs + [c] && History([c]) && c.parentActive == Active(cs))
            || (command.EndIf? && cs != [] && cs' == cs[..|cs| - 1])
            || ((command.ElseIf? || command.Else?) && cs != [] && |cs'| == |cs|
                && cs'[..|cs| - 1] == cs[..|cs| - 1] && Moves(cs[|cs| - 1], cs'[|cs| - 1]))
  {
    hide Evaluate;
    if command.If? {
      var cs := m.conditionals;
      var c := Opened(Active(cs), Decide(command.condition, m.symbols, Active(cs)).value);
      assert Effect(p, m, command).value.conditionals == cs + [c] && History([c]);
    }
  }

  // ---- Along a run

  /** A step opens a group, moves the innermost one on, closes it, or leaves the groups alone. */
  ghost predicate GroupsMove(cs: seq<Conditional>, cs': seq<Conditional>) {
    || cs' == cs
    || (|cs'| == |cs| + 1 && cs'[..|cs|] == cs && History([cs'[|cs|]]) && cs'[|cs|].parentActive == Active(cs))
    || (cs != [] && cs' == cs[..|cs| - 1])
    || (cs != [] && |cs'| == |cs| && cs'[..|cs| - 1] == cs[..|cs| - 1] && Moves(cs[|cs| - 1], cs'[|cs| - 1]))
  }

  lemma DirectiveMoves(p: Project, m: Machine, frame: Frame, range: Range, reading: Reading)
    requires frame.source in p.texts && range.Within(|p.texts[frame.source].bytes|)
    requires OnDirective(p, m, frame, range, reading).Done?
    ensures GroupsMove(m.conditionals, OnDirective(p, m, frame, range, reading).value.conditionals)
  {
    hide Effect, SpendAll, History, Moves;
    var usage := SpendAll(m.usage, p.limits, [(DirectiveCount, 1), (Work, range.Length() as nat)] + reading.charges);
    EffectMoves(p, m.(usage := usage.value), reading.command.value);
  }

  lemma StepMoves(p: Project, m: Machine)
    requires ProjectOk(p) && m.frames != [] && m.chain != [] && FrameOk(p, Current(m)) && Step(p, m).Done?
    ensures GroupsMove(m.conditionals, Step(p, m).value.conditionals)
  {
    hide OnDirective, History, Moves, HasContent;
    var frame := Current(m);
    var text := p.texts[frame.source];
    if frame.next < |text.items.value| {
      assert ItemAt(text, frame.next);
      var item := text.items.value[frame.next];
      if item.Directive? {
        DirectiveMoves(p, Advance(m), frame, item.range, item.reading);
      }
    }
  }

  lemma GroupOpens(cs: seq<Conditional>, cs': seq<Conditional>)
    requires GroupsMove(cs, cs') && |cs'| > |cs|
    ensures History([cs'[|cs|]]) && cs'[|cs|].parentActive == Active(cs)
  {}

  /** What that means for a group that is open before and after. */
  lemma GroupMoves(cs: seq<Conditional>, cs': seq<Conditional>, depth: nat)
    requires GroupsMove(cs, cs') && depth < |cs| && depth < |cs'|
    ensures cs'[depth] == cs[depth] || Moves(cs[depth], cs'[depth])
  {
    hide Moves, History;
    if |cs'| == |cs| + 1 && cs'[..|cs|] == cs {
      assert cs'[..|cs|][depth] == cs'[depth];
    } else if |cs'| == |cs| && depth < |cs| - 1 {
      assert cs'[..|cs| - 1][depth] == cs'[depth] && cs[..|cs| - 1][depth] == cs[depth];
    }
  }

  /** Consecutive states of a run. */
  ghost predicate Steps(p: Project, ms: seq<Machine>) {
    && ProjectOk(p) && ms != []
    && forall i :: 0 < i < |ms| ==> StepsTo(p, ms[i - 1], ms[i])
  }

  ghost predicate StepsTo(p: Project, m: Machine, m': Machine)
    requires ProjectOk(p)
  {
    m.frames != [] && m.chain != [] && FrameOk(p, Current(m)) && Step(p, m) == Done(m')
  }

  /** The group at this depth is open throughout. */
  ghost predicate OpenFor(ms: seq<Machine>, depth: nat) {
    forall i :: 0 <= i < |ms| ==> |ms[i].conditionals| > depth
  }

  /** The branches that the group at this depth goes through. */
  ghost function Branches(ms: seq<Machine>, depth: nat): seq<Conditional>
    requires OpenFor(ms, depth)
    decreases |ms|
  {
    if ms == [] then []
    else
      var n := |ms| - 1;
      var before := Branches(ms[..n], depth);
      var c := ms[n].conditionals[depth];
      if before != [] && before[|before| - 1] == c then before else before + [c]
  }

  lemma HistoryMore(cs: seq<Conditional>, c: Conditional)
    requires History(cs) && Moves(cs[|cs| - 1], c)
    ensures History(cs + [c])
  {
    var all := cs + [c];
    forall i | 0 < i < |all| ensures Moves(all[i - 1], all[i]) {
      if i < |cs| {
        assert Moves(cs[i - 1], cs[i]);
      }
    }
  }

  /** From the step that opens a group, for as long as it stays open, its branches form a history. */
  lemma {:induction false} RunHistory(p: Project, ms: seq<Machine>, depth: nat)
    requires Steps(p, ms) && |ms| > 1 && |ms[0].conditionals| == depth && OpenFor(ms[1..], depth)
    ensures var cs := Branches(ms[1..], depth);
            && History(cs) && cs[0].parentActive == Active(ms[0].conditionals)
            && cs[|cs| - 1] == ms[|ms| - 1].conditionals[depth]
    decreases |ms|
  {
    hide Step, Moves, History, GroupsMove, ProjectOk, FrameOk;
    var n := |ms| - 1;
    var open := ms[1..];
    assert StepsTo(p, ms[n - 1], ms[n]) && open[n - 1] == ms[n];
    StepMoves(p, ms[n - 1]);
    var c := ms[n].conditionals[depth];
    if n == 1 {
      assert open == [ms[1]] && open[..0] == [];
      GroupOpens(ms[0].conditionals, ms[1].conditionals);
      assert Branches(open, depth) == [c];
    } else {
      var front := ms[..n];
      assert front[1..] == open[..n - 1];
      assert forall i :: 0 < i < n ==> StepsTo(p, ms[i - 1], ms[i]) && front[i] == ms[i];
      RunHistory(p, front, depth);
      assert open[n - 2] == ms[n - 1];
      var before := ms[n - 1].conditionals[depth];
      GroupMoves(ms[n - 1].conditionals, ms[n].conditionals, depth);
      if c != before {
        HistoryMore(Branches(open[..n - 1], depth), c);
      }
    }
  }

  /** However a run goes on, a group in it has had at most one live branch so far, and none in dead text. */
  lemma RunHasOneLiveBranch(p: Project, ms: seq<Machine>, depth: nat)
    requires Steps(p, ms) && |ms| > 1 && |ms[0].conditionals| == depth && OpenFor(ms[1..], depth)
    ensures var last := ms[|ms| - 1].conditionals[depth];
            && last.parentActive == Active(ms[0].conditionals)
            && LiveBranches(Branches(ms[1..], depth)) == (if last.parentActive && last.branchTaken then 1 else 0)
            && (last.sawElse ==> last.branchTaken)
  {
    hide Step, History;
    RunHistory(p, ms, depth);
    OneLiveBranch(Branches(ms[1..], depth));
  }
}
