/**
  The structured meaning of Pascal statements: their finite runs.

  A run is a derivation tree. Its leaves carry the statement references that were visited and the
  ways that were taken, and every node states how it completed, so the trace of a run is read off
  the tree and no quantifier over intermediate traces is needed.
  */
module StructuredRuns {
  import opened ExceptionTypes
  import opened PascalSyntax

  /** How a statement completes. */
  datatype Outcome =
    | Normal
    | Exited
    | Broke
    | Continued
    | Raised(fact: Fact, spelling: Option<string>)

  /** The exception that any executable statement may raise. */
  const Implicit: Outcome := Raised(Unknown, None)

  /** What a statement inherits: the type index, whether a loop encloses it, the handled fact. */
  datatype Env = Env(index: TypeIndex, inLoop: bool, handled: Fact)

  /** Where a routine starts. */
  function StartEnv(index: TypeIndex): Env {
    Env(index, false, Unknown)
  }

  /** How control goes on from one basic block to another. */
  datatype EdgeKind =
    | Normally | ConditionalTrue | ConditionalFalse | LoopBack | LoopExit
    | ExceptionThrow | FinallyEntry | FinallyExit | CaseArm | Goto

  /**
    What a run leaves behind: the references it visits, the ways it takes, and for each cleanup the
    completion that is suspended meanwhile.
    */
  datatype Event = Visit(id: StmtId) | Via(kind: EdgeKind) | Cleanup(scope: ScopeId, resumes: Outcome)

  type Trace = seq<Event>

  /** The kinds that say something about the run; the others just lead on. */
  function Mark(kind: EdgeKind): Trace {
    if kind.Normally? || kind.FinallyExit? || kind.Goto? then [] else [Via(kind)]
  }

  lemma Unmarked()
    ensures Mark(Normally) == [] && Mark(FinallyExit) == []
  {}

  /** A cleanup is entered by throwing, or by falling or jumping into it. */
  function EntryKind(o: Outcome): EdgeKind {
    if o.Raised? then ExceptionThrow else FinallyEntry
  }

  /** The end of a loop body leads back to the head; a Continue just goes there. */
  function BackMark(o: Outcome): Trace {
    if o.Normal? then Mark(LoopBack) else []
  }

  /** An exception that leaves the routine is thrown out of it. */
  function LeaveMark(o: Outcome): Trace {
    if o.Raised? then Mark(ExceptionThrow) else []
  }

  function Refs(ids: seq<StmtId>): Trace {
    seq(|ids|, i requires 0 <= i < |ids| => Visit(ids[i]))
  }

  /** The references and the ways among the events. */
  function Walked(t: Trace): Trace {
    if t == [] then []
    else Walked(t[..|t| - 1]) + if t[|t| - 1].Cleanup? then [] else [t[|t| - 1]]
  }

  lemma {:induction false} WalkedAppend(a: Trace, b: Trace)
    ensures Walked(a + b) == Walked(a) + Walked(b)
    decreases |b|
  {
    if b == [] {
      assert a + b == a;
    } else {
      assert (a + b)[..|a + b| - 1] == a + b[..|b| - 1];
      WalkedAppend(a, b[..|b| - 1]);
    }
  }

  lemma {:induction false} WalkedAll(t: Trace)
    requires forall x :: x in t ==> !x.Cleanup?
    ensures Walked(t) == t
    decreases |t|
  {
    if t != [] {
      WalkedAll(t[..|t| - 1]);
      assert t[|t| - 1] in t && t == t[..|t| - 1] + [t[|t| - 1]];
    }
  }

  /** The events without the numbers of the cleanup scopes. */
  function Unnumbered(t: Trace): Trace {
    seq(|t|, i requires 0 <= i < |t| => if t[i].Cleanup? then t[i].(scope := 0) else t[i])
  }

  lemma UnnumberedAppend(a: Trace, b: Trace)
    ensures Unnumbered(a + b) == Unnumbered(a) + Unnumbered(b)
  {}

  lemma {:induction false} WalkedUnnumbered(t: Trace)
    ensures Walked(Unnumbered(t)) == Walked(t)
    decreases |t|
  {
    if t != [] {
      assert Unnumbered(t)[..|t| - 1] == Unnumbered(t[..|t| - 1]);
      WalkedUnnumbered(t[..|t| - 1]);
    }
  }

  datatype Run =
    | Leaf(events: Trace, out: Outcome)
    | Node(first: Run, second: Run, out: Outcome)

  const Done: Run := Leaf([], Normal)

  function Events(r: Run): Trace {
    match r
    case Leaf(ev, _) => ev
    case Node(a, b, _) => Events(a) + Events(b)
  }

  // ---- Which completions a statement can have, read off the syntax

  ghost predicate Completes(s: Stmt) {
    match s
    case Simple(_) => true
    case Raise(_, _, _, _) => false
    case Reraise(_) => false
    case Exit(_, _) => false
    case Break(_) => false
    case Continue(_) => false
    case Block(b) => CompletesSeq(b)
    case IfElse(_, t, f) => CompletesSeq(t) || CompletesSeq(f)
    case IfOnly(_, _) => true
    case Loop(_, _) => true
    case Repeat(_, _, _) => true
    case Case(_, arms, fallback) =>
      fallback.NoFallback? || CompletesSeq(fallback.body) || exists i :: 0 <= i < |arms| && CompletesSeq(arms[i].body)
    case With(_, b) => CompletesSeq(b)
    case TryFinally(_, b, c) => CompletesSeq(b) && CompletesSeq(c)
    case TryExcept(b, hs) =>
      CompletesSeq(b) || hs == [] || exists i :: 0 <= i < |hs| && CompletesSeq(hs[i].body)
  }

  /** A statement after an abrupt one is still walked, so only the last one counts. */
  ghost predicate CompletesSeq(ss: seq<Stmt>) {
    ss == [] || Completes(ss[|ss| - 1])
  }

  /** What a `break` or `continue` does: outside every loop it leaves the routine. */
  function LoopJump(e: Env, jump: Outcome): Outcome {
    if e.inLoop then jump else Exited
  }

  ghost predicate Escapes(index: TypeIndex, hs: seq<Handler>, raised: Fact) {
    hs != [] && forall h :: h in hs ==> h.Typed? && MatchHandler(index, raised, HandlerFact(h)) != Yes
  }

  /** Handler `i` may receive the fact: no earlier handler surely catches it. */
  ghost predicate MayCatch(index: TypeIndex, hs: seq<Handler>, raised: Fact, i: nat)
    requires i < |hs|
  {
    && (forall j :: 0 <= j < i ==> hs[j].Typed? && MatchHandler(index, raised, HandlerFact(hs[j])) != Yes)
    && (hs[i].CatchAll? || MatchHandler(index, raised, HandlerFact(hs[i])) != No)
  }

  /** The fact a bare `raise` in this handler carries. */
  ghost function HandledFact(index: TypeIndex, h: Handler, incoming: set<Fact>): Fact {
    if h.CatchAll? then Unknown else HandlerContext(index, HandlerFact(h), incoming)
  }

  ghost function FactsOf(outs: set<Outcome>): set<Fact> {
    set o | o in outs && o.Raised? :: o.fact
  }

  ghost function HandlerEnv(e: Env, h: Handler, incoming: set<Fact>): Env {
    e.(handled := HandledFact(e.index, h, incoming))
  }

  /** The abrupt completions that the builder keeps pending after a statement. */
  ghost function Outs(s: Stmt, e: Env): set<Outcome> {
    match s
    case Simple(_) => {Implicit}
    case Raise(_, t, name, ev) => {Raised(RaisedFact(t), LowerName(name))} + if ev then {Implicit} else {}
    case Reraise(_) => {Raised(e.handled, None)}
    case Exit(_, arg) => {Exited} + if arg then {Implicit} else {}
    case Break(_) => {LoopJump(e, Broke)}
    case Continue(_) => {LoopJump(e, Continued)}
    case Block(b) => OutsSeq(b, e)
    case IfElse(_, t, f) => {Implicit} + OutsSeq(t, e) + OutsSeq(f, e)
    case IfOnly(_, t) => {Implicit} + OutsSeq(t, e)
    case Loop(_, b) => {Implicit} + (OutsSeq(b, e.(inLoop := true)) - {Broke, Continued})
    case Repeat(_, _, b) => {Implicit} + (OutsSeq(b, e.(inLoop := true)) - {Broke, Continued})
    case Case(_, arms, fallback) =>
      {Implicit} + OutsArms(arms, e) + if fallback.Fallback? then OutsSeq(fallback.body, e) else {}
    case With(_, b) => {Implicit} + OutsSeq(b, e)
    case TryFinally(_, b, c) =>
      (if CompletesSeq(c) then OutsSeq(b, e) else {})
      + (if CompletesSeq(b) || OutsSeq(b, e) != {} then OutsSeq(c, e) else {})
    case TryExcept(b, hs) =>
      var inner := OutsSeq(b, e);
      (set o | o in inner && (o.Raised? ==> Escapes(e.index, hs, o.fact)))
      + OutsHandlers(hs, e, FactsOf(inner))
  }

  ghost function OutsSeq(ss: seq<Stmt>, e: Env): set<Outcome> {
    if ss == [] then {} else OutsSeq(ss[..|ss| - 1], e) + Outs(ss[|ss| - 1], e)
  }

  ghost function OutsArms(arms: seq<Arm>, e: Env): set<Outcome> {
    if arms == [] then {} else OutsArms(arms[..|arms| - 1], e) + OutsSeq(arms[|arms| - 1].body, e)
  }

  ghost function OutsHandlers(hs: seq<Handler>, e: Env, incoming: set<Fact>): set<Outcome> {
    if hs == [] then {}
    else
      var h := hs[|hs| - 1];
      OutsHandlers(hs[..|hs| - 1], e, incoming) + OutsSeq(h.body, HandlerEnv(e, h, incoming))
  }

  // ---- Runs

  ghost predicate IsRun(s: Stmt, e: Env, r: Run)
    decreases r, s
  {
    match s
    case Simple(id) => r == Leaf(Refs([id]), Normal) || r == Leaf(Refs([id]), Implicit)
    case Raise(id, t, name, ev) =>
      r == Leaf(Refs([id]), Raised(RaisedFact(t), LowerName(name))) || (ev && r == Leaf(Refs([id]), Implicit))
    case Reraise(id) => r == Leaf(Refs([id]), Raised(e.handled, None))
    case Exit(id, arg) => r == Leaf(Refs([id]), Exited) || (arg && r == Leaf(Refs([id]), Implicit))
    case Break(id) => r == Leaf(Refs([id]), LoopJump(e, Broke))
    case Continue(id) => r == Leaf(Refs([id]), LoopJump(e, Continued))
    case Block(b) => IsRunSeq(b, e, r)
    case IfElse(id, t, f) =>
      || (Headed(id, ConditionalTrue, r) && (r.Node? ==> IsRunSeq(t, e, r.second)))
      || (Headed(id, ConditionalFalse, r) && (r.Node? ==> IsRunSeq(f, e, r.second)))
    case IfOnly(id, t) =>
      || r == Leaf(Refs([id]) + Mark(ConditionalFalse), Normal)
      || (Headed(id, ConditionalTrue, r) && (r.Node? ==> IsRunSeq(t, e, r.second)))
    case Loop(id, b) =>
      || r == Leaf(Refs([id]) + Mark(LoopExit), Normal)
      || r == Leaf(Refs([id]), Implicit)
      || (r.Node? && r.first.Node? && Headed(id, ConditionalTrue, r.first)
          && IsRunSeq(b, e.(inLoop := true), r.first.second)
          && (if r.first.out in {Normal, Continued} then
                && r.second.Node? && r.second.first == Leaf(BackMark(r.first.out), Normal)
                && IsRun(s, e, r.second.second) && r.second.out == r.second.second.out && r.out == r.second.out
              else r.second == Done && r.out == AfterBreak(r.first.out)))
    case Repeat(kw, cond, b) =>
      && r.Node?
      && IsRunSeq(b, e.(inLoop := true), r.first)
      && (if r.first.out in {Normal, Continued} then
            r.out == r.second.out
            && (|| r.second == Leaf(Refs([kw, cond]) + Mark(LoopExit), Normal)
                || r.second == Leaf(Refs([kw, cond]), Implicit)
                || (r.second.Node? && r.second.first == Leaf(Refs([kw, cond]) + Mark(LoopBack), Normal)
                    && IsRun(s, e, r.second.second) && r.second.out == r.second.second.out))
          else r.second == Done && r.out == AfterBreak(r.first.out))
    case Case(id, arms, fallback) =>
      || (fallback.NoFallback? && r == Leaf(Refs([id]) + Mark(CaseArm), Normal))
      || (Headed(id, CaseArm, r)
          && (r.Node? ==> (|| (fallback.Fallback? && IsRunSeq(fallback.body, e, r.second))
                           || exists i :: 0 <= i < |arms| && IsRunSeq(arms[i].body, e, r.second))))
    case With(id, b) => Headed(id, Normally, r) && (r.Node? ==> IsRunSeq(b, e, r.second))
    case TryFinally(f, b, c) =>
      && r.Node?
      && IsRunSeq(b, e, r.first)
      && r.second.Node? && r.second.first == Leaf(Entered(f, r.first.out), Normal)
      && r.second.out == r.second.second.out
      && IsRunSeq(c, e, r.second.second)
      && r.out == if r.second.out.Normal? then r.first.out else r.second.out
    case TryExcept(b, hs) =>
      && r.Node?
      && IsRunSeq(b, e, r.first)
      && (if r.first.out.Raised? then
            || (hs == [] && r.second == Leaf(Mark(ExceptionThrow), Normal) && r.out == Normal)
            || (Escapes(e.index, hs, r.first.out.fact) && r.second == Done && r.out == r.first.out)
            || (r.second.Node? && r.second.first == Leaf(Mark(ExceptionThrow), Normal)
                && r.out == r.second.out == r.second.second.out
                && exists i ::
                     && 0 <= i < |hs|
                     && MayCatch(e.index, hs, r.first.out.fact, i)
                     && IsRunSeq(hs[i].body, HandlerEnv(e, hs[i], FactsOf(OutsSeq(b, e))), r.second.second))
          else r.second == Done && r.out == r.first.out)
  }

  /** The reference is visited and either raises, or the run goes on below it, this way. */
  ghost predicate Headed(id: StmtId, way: EdgeKind, r: Run) {
    || r == Leaf(Refs([id]), Implicit)
    || (r.Node? && r.first == Leaf(Refs([id]) + Mark(way), Normal) && r.out == r.second.out)
  }

  /** Into the cleanup of `f`, with `o` pending. */
  function Entered(f: ScopeId, o: Outcome): Trace {
    Mark(EntryKind(o)) + [Cleanup(f, o)]
  }

  function AfterBreak(out: Outcome): Outcome {
    if out.Broke? then Normal else out
  }

  ghost predicate IsRunSeq(ss: seq<Stmt>, e: Env, r: Run)
    decreases r, ss
  {
    if ss == [] then r == Done
    else
      && r.Node?
      && IsRunSeq(ss[..|ss| - 1], e, r.first)
      && (if r.first.out.Normal? then IsRun(ss[|ss| - 1], e, r.second) && r.out == r.second.out
          else r.second == Done && r.out == r.first.out)
  }

  // ---- The syntactic completions cover every run

  lemma {:induction false} RunCovered(s: Stmt, e: Env, r: Run)
    requires IsRun(s, e, r)
    ensures r.out.Normal? ==> Completes(s)
    ensures !r.out.Normal? ==> r.out in Outs(s, e)
    decreases r, s
  {
    match s
    case Simple(_) =>
    case Raise(_, _, _, _) =>
    case Reraise(_) =>
    case Exit(_, _) =>
    case Break(_) =>
    case Continue(_) =>
    case Block(b) => RunSeqCovered(b, e, r);
    case IfElse(_, t, f) =>
      if r.Node? {
        if IsRunSeq(t, e, r.second) {
          RunSeqCovered(t, e, r.second);
        } else {
          RunSeqCovered(f, e, r.second);
        }
      }
    case IfOnly(_, t) =>
      if r.Node? {
        RunSeqCovered(t, e, r.second);
      }
    case Loop(_, b) =>
      if r.Node? {
        RunSeqCovered(b, e.(inLoop := true), r.first.second);
        if r.first.out in {Normal, Continued} {
          RunCovered(s, e, r.second.second);
        }
      }
    case Repeat(_, _, b) =>
      RunSeqCovered(b, e.(inLoop := true), r.first);
      if r.first.out in {Normal, Continued} && r.second.Node? {
        RunCovered(s, e, r.second.second);
      }
    case Case(_, arms, fallback) =>
      if r.Node? {
        if fallback.Fallback? && IsRunSeq(fallback.body, e, r.second) {
          RunSeqCovered(fallback.body, e, r.second);
        } else {
          var i :| 0 <= i < |arms| && IsRunSeq(arms[i].body, e, r.second);
          RunSeqCovered(arms[i].body, e, r.second);
          OutsArmsContain(arms, e, i);
        }
      }
    case With(_, b) =>
      if r.Node? {
        RunSeqCovered(b, e, r.second);
      }
    case TryFinally(_, b, c) =>
      RunSeqCovered(b, e, r.first);
      RunSeqCovered(c, e, r.second.second);
    case TryExcept(b, hs) => TryExceptCovered(b, hs, e, r);
  }

  lemma {:induction false} TryExceptCovered(b: seq<Stmt>, hs: seq<Handler>, e: Env, r: Run)
    requires IsRun(TryExcept(b, hs), e, r)
    ensures r.out.Normal? ==> Completes(TryExcept(b, hs))
    ensures !r.out.Normal? ==> r.out in Outs(TryExcept(b, hs), e)
    decreases r, b, 0
  {
    RunSeqCovered(b, e, r.first);
    if r.first.out.Raised? && hs != []
        && !(Escapes(e.index, hs, r.first.out.fact) && r.second == Done && r.out == r.first.out) {
      var incoming := FactsOf(OutsSeq(b, e));
      var i :| 0 <= i < |hs| && IsRunSeq(hs[i].body, HandlerEnv(e, hs[i], incoming), r.second.second);
      RunSeqCovered(hs[i].body, HandlerEnv(e, hs[i], incoming), r.second.second);
      OutsHandlersContain(hs, e, incoming, i);
    }
  }

  lemma {:induction false} RunSeqCovered(ss: seq<Stmt>, e: Env, r: Run)
    requires IsRunSeq(ss, e, r)
    ensures r.out.Normal? ==> CompletesSeq(ss)
    ensures !r.out.Normal? ==> r.out in OutsSeq(ss, e)
    decreases r, ss
  {
    if ss != [] {
      RunSeqCovered(ss[..|ss| - 1], e, r.first);
      if r.first.out.Normal? {
        RunCovered(ss[|ss| - 1], e, r.second);
      }
    }
  }

  lemma {:induction false} OutsArmsContain(arms: seq<Arm>, e: Env, i: nat)
    requires i < |arms|
    ensures OutsSeq(arms[i].body, e) <= OutsArms(arms, e)
    decreases |arms|
  {
    if i < |arms| - 1 {
      OutsArmsContain(arms[..|arms| - 1], e, i);
    }
  }

  lemma {:induction false} OutsHandlersContain(hs: seq<Handler>, e: Env, incoming: set<Fact>, i: nat)
    requires i < |hs|
    ensures OutsSeq(hs[i].body, HandlerEnv(e, hs[i], incoming)) <= OutsHandlers(hs, e, incoming)
    decreases |hs|
  {
    if i < |hs| - 1 {
      OutsHandlersContain(hs[..|hs| - 1], e, incoming, i);
    }
  }

  // ---- Where exceptions go, by the declarations alone

  /** The handler names a class that is known to catch the fact. */
  ghost predicate CatchesSurely(index: TypeIndex, h: Handler, raised: Fact) {
    h.CatchAll? || (h.resolved && SurelyCaught(index, raised, h.declared))
  }

  /** The handler names a class that is known to miss the fact. */
  ghost predicate MissesSurely(index: TypeIndex, h: Handler, raised: Fact) {
    h.Typed? && h.resolved && SurelyMissed(index, raised, h.declared)
  }

  /**
    An exception may go to a handler exactly when no handler before it surely catches and it does not
    surely miss; it may go on exactly when there are handlers and none surely catches.
    */
  lemma DispatchExact(index: TypeIndex, hs: seq<Handler>, raised: Fact)
    ensures forall i :: 0 <= i < |hs| ==>
              (MayCatch(index, hs, raised, i) <==>
                 && (forall j :: 0 <= j < i ==> !CatchesSurely(index, hs[j], raised))
                 && !MissesSurely(index, hs[i], raised))
    ensures Escapes(index, hs, raised) <==> hs != [] && forall h :: h in hs ==> !CatchesSurely(index, h, raised)
  {
    forall h: Handler | h.Typed?
      ensures MatchHandler(index, raised, HandlerFact(h)) == Yes <==> CatchesSurely(index, h, raised)
      ensures MatchHandler(index, raised, HandlerFact(h)) == No <==> MissesSurely(index, h, raised)
    {
      MatchHandlerExact(index, raised, HandlerFact(h));
    }
    hide MatchHandler, HandlerFact, SurelyCaught, SurelyMissed;
  }
}
