/**
  Executions with real exception classes.

  An execution raises objects of runtime classes and takes the first handler whose class is
  an ancestor. It knows nothing of facts; every execution is shown to be one of the
  structured runs that the control-flow graph follows.
  */
module Executions {
  import opened ExceptionTypes
  import opened PascalSyntax
  import opened StructuredRuns

  datatype End = Fell | Exits | Breaks | Continues | Throws(class_: TypeId)

  datatype Execution =
    | Step(events: Trace, end: End)
    | Then(first: Execution, second: Execution, end: End)

  const Over: Execution := Step([], Fell)

  /** What an execution does: the references it visits and the ways it takes. */
  function Acts(x: Execution): Trace {
    match x
    case Step(ev, _) => ev
    case Then(a, b, _) => Acts(a) + Acts(b)
  }

  /** The runtime surroundings: the class hierarchy, whether a loop encloses, the exception being handled. */
  datatype Scene = Scene(world: Hierarchy, inLoop: bool, handled: Option<TypeId>)

  ghost predicate Catches(world: Hierarchy, h: Handler, c: TypeId) {
    h.CatchAll? || Descends(world, c, h.declared)
  }

  /** Handler `i` is the first that catches. */
  ghost predicate FirstCatch(world: Hierarchy, hs: seq<Handler>, c: TypeId, i: nat)
    requires i < |hs|
  {
    Catches(world, hs[i], c) && forall j :: 0 <= j < i ==> !Catches(world, hs[j], c)
  }

  /** References that throw anything. */
  ghost predicate Fails(ids: seq<StmtId>, x: Execution) {
    x.Step? && x.events == Refs(ids) && x.end.Throws?
  }

  ghost predicate HeadedBy(id: StmtId, way: EdgeKind, x: Execution) {
    || Fails([id], x)
    || (x.Then? && x.first == Step(Refs([id]) + Mark(way), Fell) && x.end == x.second.end)
  }

  /** The ways that depend on how the part before them ended. */
  function BackAct(end: End): Trace {
    if end.Fell? then Mark(LoopBack) else []
  }

  function CleanupAct(end: End): Trace {
    Mark(if end.Throws? then ExceptionThrow else FinallyEntry)
  }

  function LeaveAct(end: End): Trace {
    if end.Throws? then Mark(ExceptionThrow) else []
  }

  /** A part that begins with such a way. */
  ghost predicate Behind(way: Trace, x: Execution) {
    x.Then? && x.first == Step(way, Fell) && x.end == x.second.end
  }

  function JumpEnd(z: Scene, jump: End): End {
    if z.inLoop then jump else Exits
  }

  function BreakEnd(end: End): End {
    if end.Breaks? then Fell else end
  }

  ghost predicate Executes(s: Stmt, z: Scene, x: Execution)
    decreases x, s
  {
    match s
    case Simple(id) => x == Step(Refs([id]), Fell) || Fails([id], x)
    case Raise(id, t, _, ev) => Fails([id], x) && (!ev && t.Some? ==> x.end.class_ == t.value)
    case Reraise(id) => Fails([id], x) && (z.handled.Some? ==> x.end.class_ == z.handled.value)
    case Exit(id, arg) => x == Step(Refs([id]), Exits) || (arg && Fails([id], x))
    case Break(id) => x == Step(Refs([id]), JumpEnd(z, Breaks))
    case Continue(id) => x == Step(Refs([id]), JumpEnd(z, Continues))
    case Block(b) => ExecutesSeq(b, z, x)
    case IfElse(id, t, f) =>
      || (HeadedBy(id, ConditionalTrue, x) && (x.Then? ==> ExecutesSeq(t, z, x.second)))
      || (HeadedBy(id, ConditionalFalse, x) && (x.Then? ==> ExecutesSeq(f, z, x.second)))
    case IfOnly(id, t) =>
      || x == Step(Refs([id]) + Mark(ConditionalFalse), Fell)
      || (HeadedBy(id, ConditionalTrue, x) && (x.Then? ==> ExecutesSeq(t, z, x.second)))
    case Loop(id, b) =>
      || x == Step(Refs([id]) + Mark(LoopExit), Fell)
      || Fails([id], x)
      || (x.Then? && x.first.Then? && HeadedBy(id, ConditionalTrue, x.first)
          && ExecutesSeq(b, z.(inLoop := true), x.first.second)
          && (if x.first.end in {Fell, Continues} then
                Behind(BackAct(x.first.end), x.second) && Executes(s, z, x.second.second) && x.end == x.second.end
              else x.second == Over && x.end == BreakEnd(x.first.end)))
    case Repeat(kw, cond, b) =>
      && x.Then?
      && ExecutesSeq(b, z.(inLoop := true), x.first)
      && (if x.first.end in {Fell, Continues} then
            x.end == x.second.end
            && (|| x.second == Step(Refs([kw, cond]) + Mark(LoopExit), Fell)
                || Fails([kw, cond], x.second)
                || (Behind(Refs([kw, cond]) + Mark(LoopBack), x.second) && Executes(s, z, x.second.second)))
          else x.second == Over && x.end == BreakEnd(x.first.end))
    case Case(id, arms, fallback) =>
      || (fallback.NoFallback? && x == Step(Refs([id]) + Mark(CaseArm), Fell))
      || (HeadedBy(id, CaseArm, x)
          && (x.Then? ==> (|| (fallback.Fallback? && ExecutesSeq(fallback.body, z, x.second))
                           || exists i :: 0 <= i < |arms| && ExecutesSeq(arms[i].body, z, x.second))))
    case With(id, b) => HeadedBy(id, Normally, x) && (x.Then? ==> ExecutesSeq(b, z, x.second))
    case TryFinally(_, b, c) =>
      && x.Then?
      && ExecutesSeq(b, z, x.first)
      && Behind(CleanupAct(x.first.end), x.second)
      && ExecutesSeq(c, z, x.second.second)
      && x.end == if x.second.end.Fell? then x.first.end else x.second.end
    case TryExcept(b, hs) =>
      && x.Then?
      && ExecutesSeq(b, z, x.first)
      && (if x.first.end.Throws? then
            var c := x.first.end.class_;
            || (hs == [] && x.second == Step(Mark(ExceptionThrow), Fell) && x.end == Fell)
            || (hs != [] && (forall h :: h in hs ==> !Catches(z.world, h, c)) && x.second == Over
                && x.end == x.first.end)
            || (Behind(Mark(ExceptionThrow), x.second) && x.end == x.second.end
                && exists i ::
                     && 0 <= i < |hs|
                     && FirstCatch(z.world, hs, c, i)
                     && ExecutesSeq(hs[i].body, z.(handled := Some(c)), x.second.second))
          else x.second == Over && x.end == x.first.end)
  }

  ghost predicate ExecutesSeq(ss: seq<Stmt>, z: Scene, x: Execution)
    decreases x, ss
  {
    if ss == [] then x == Over
    else
      && x.Then?
      && ExecutesSeq(ss[..|ss| - 1], z, x.first)
      && (if x.first.end.Fell? then Executes(ss[|ss| - 1], z, x.second) && x.end == x.second.end
          else x.second == Over && x.end == x.first.end)
  }

  // ---- Facts cover classes

  ghost predicate Covers(world: Hierarchy, out: Outcome, end: End) {
    match end
    case Fell => out.Normal?
    case Exits => out.Exited?
    case Breaks => out.Broke?
    case Continues => out.Continued?
    case Throws(c) => out.Raised? && Allows(world, out.fact, c)
  }

  ghost predicate Fits(e: Env, z: Scene) {
    && Agrees(z.world, e.index)
    && e.inLoop == z.inLoop
    && (if z.handled.Some? then Allows(z.world, e.handled, z.handled.value) else e.handled.Unknown?)
  }

  ghost predicate Abstracts(world: Hierarchy, r: Run, x: Execution) {
    Walked(Events(r)) == Acts(x) && Covers(world, r.out, x.end)
  }

  /** A handler that may not catch the class does not surely catch the fact, and the other way round. */
  lemma MatchAgrees(world: Hierarchy, index: TypeIndex, fact: Fact, h: Handler, c: TypeId)
    requires Agrees(world, index) && Allows(world, fact, c) && h.Typed?
    ensures !Catches(world, h, c) ==> MatchHandler(index, fact, HandlerFact(h)) != Yes
    ensures Catches(world, h, c) ==> MatchHandler(index, fact, HandlerFact(h)) != No
  {
    if h.resolved {
      MatchHandlerSound(world, index, fact, h.declared, c);
    }
  }

  /** The handler that really catches has an edge, and its fact covers the class. */
  lemma CatchAgrees(e: Env, z: Scene, hs: seq<Handler>, incoming: set<Fact>, fact: Fact, c: TypeId, i: nat)
    requires Fits(e, z) && fact in incoming && Allows(z.world, fact, c) && i < |hs| && FirstCatch(z.world, hs, c, i)
    ensures MayCatch(e.index, hs, fact, i)
    ensures Fits(HandlerEnv(e, hs[i], incoming), z.(handled := Some(c)))
  {
    forall j | 0 <= j < i ensures hs[j].Typed? && MatchHandler(e.index, fact, HandlerFact(hs[j])) != Yes {
      MatchAgrees(z.world, e.index, fact, hs[j], c);
    }
    if hs[i].Typed? {
      MatchAgrees(z.world, e.index, fact, hs[i], c);
      if hs[i].resolved {
        HandlerContextCovers(z.world, e.index, hs[i].declared, incoming, fact, c);
      }
    }
  }

  /** When no handler catches the class, the exception stays pending. */
  lemma EscapeAgrees(e: Env, z: Scene, hs: seq<Handler>, fact: Fact, c: TypeId)
    requires Fits(e, z) && Allows(z.world, fact, c) && hs != [] && forall h :: h in hs ==> !Catches(z.world, h, c)
    ensures Escapes(e.index, hs, fact)
  {
    forall h | h in hs ensures h.Typed? && MatchHandler(e.index, fact, HandlerFact(h)) != Yes {
      MatchAgrees(z.world, e.index, fact, h, c);
    }
  }

  // ---- Every execution is a structured run

  /** Events without cleanups are all acts. */
  lemma LeafActs(events: Trace, out: Outcome, world: Hierarchy, x: Execution)
    requires forall v :: v in events ==> !v.Cleanup?
    requires x.Step? && x.events == events && Covers(world, out, x.end)
    ensures Abstracts(world, Leaf(events, out), x)
  {
    WalkedAll(events);
  }

  lemma NodeActs(a: Run, b: Run, out: Outcome, world: Hierarchy, x: Execution)
    requires x.Then? && Walked(Events(a)) == Acts(x.first) && Walked(Events(b)) == Acts(x.second)
    requires Covers(world, out, x.end)
    ensures Abstracts(world, Node(a, b, out), x)
  {
    hide Walked;
    WalkedAppend(Events(a), Events(b));
  }

  lemma NothingActs()
    ensures Walked(Events(Done)) == [] && Acts(Over) == []
  {}

  /** The run of a part that begins with a way. */
  lemma BehindRun(way: Trace, b: Run, world: Hierarchy, x: Execution) returns (r: Run)
    requires forall v :: v in way ==> !v.Cleanup?
    requires Behind(way, x) && Abstracts(world, b, x.second)
    ensures r == Node(Leaf(way, Normal), b, b.out) && Abstracts(world, r, x)
  {
    hide Walked;
    LeafActs(way, Normal, world, x.first);
    r := Node(Leaf(way, Normal), b, b.out);
    NodeActs(r.first, b, b.out, world, x);
  }

  lemma HeadRun(id: StmtId, way: EdgeKind, b: Run, world: Hierarchy, x: Execution) returns (r: Run)
    requires HeadedBy(id, way, x) && x.Then? && Abstracts(world, b, x.second)
    ensures r == Node(Leaf(Refs([id]) + Mark(way), Normal), b, b.out) && Abstracts(world, r, x)
    ensures Headed(id, way, r)
  {
    r := BehindRun(Refs([id]) + Mark(way), b, world, x);
  }

  lemma FailRun(ids: seq<StmtId>, world: Hierarchy, x: Execution) returns (r: Run)
    requires Fails(ids, x)
    ensures r == Leaf(Refs(ids), Implicit) && Abstracts(world, r, x)
  {
    r := Leaf(Refs(ids), Implicit);
    LeafActs(Refs(ids), Implicit, world, x);
  }

  lemma PassRun(ids: seq<StmtId>, way: EdgeKind, world: Hierarchy, x: Execution) returns (r: Run)
    requires x == Step(Refs(ids) + Mark(way), Fell)
    ensures r == Leaf(Refs(ids) + Mark(way), Normal) && Abstracts(world, r, x)
  {
    r := Leaf(Refs(ids) + Mark(way), Normal);
    LeafActs(Refs(ids) + Mark(way), Normal, world, x);
  }

  lemma EnteredActs(f: ScopeId, o: Outcome, world: Hierarchy, end: End)
    requires Covers(world, o, end)
    ensures Walked(Entered(f, o)) == CleanupAct(end)
  {
    WalkedAppend(Mark(EntryKind(o)), [Cleanup(f, o)]);
    WalkedAll(Mark(EntryKind(o)));
  }

  lemma CleanedRun(s: Stmt, e: Env, z: Scene, x: Execution, a: Run, c: Run) returns (r: Run)
    requires s.TryFinally? && Executes(s, z, x) && IsRunSeq(s.body, e, a) && IsRunSeq(s.cleanup, e, c)
    requires Abstracts(z.world, a, x.first) && Abstracts(z.world, c, x.second.second)
    ensures IsRun(s, e, r) && Abstracts(z.world, r, x)
  {
    hide IsRunSeq, ExecutesSeq, Walked, Refs, Mark, Entered;
    EnteredActs(s.scope, a.out, z.world, x.first.end);
    var cleaned := Node(Leaf(Entered(s.scope, a.out), Normal), c, c.out);
    NodeActs(cleaned.first, c, c.out, z.world, x.second);
    r := Node(a, cleaned, if c.out.Normal? then a.out else c.out);
    NodeActs(a, cleaned, r.out, z.world, x);
  }

  predicate VisitsOnce(s: Stmt) {
    s.Simple? || s.Raise? || s.Reraise? || s.Exit? || s.Break? || s.Continue?
  }

  lemma OnceRun(s: Stmt, e: Env, z: Scene, x: Execution) returns (r: Run)
    requires VisitsOnce(s) && Executes(s, z, x) && Fits(e, z)
    ensures IsRun(s, e, r) && Abstracts(z.world, r, x)
  {
    var out :=
      match s
      case Simple(_) => if x.end.Fell? then Normal else Implicit
      case Raise(_, t, name, ev) => if ev then Implicit else Raised(RaisedFact(t), LowerName(name))
      case Reraise(_) => Raised(e.handled, None)
      case Exit(_, _) => if x.end.Exits? then Exited else Implicit
      case Break(_) => LoopJump(e, Broke)
      case Continue(_) => LoopJump(e, Continued);
    hide Walked;
    r := Leaf(Refs([s.id]), out);
    LeafActs(Refs([s.id]), out, z.world, x);
  }

  lemma {:induction false} ExecutionRun(s: Stmt, e: Env, z: Scene, x: Execution) returns (r: Run)
    requires Executes(s, z, x) && Fits(e, z)
    ensures IsRun(s, e, r) && Abstracts(z.world, r, x)
    decreases x, s, 2
  {
    hide Refs, Mark, Abstracts, Fits;
    if VisitsOnce(s) {
      r := OnceRun(s, e, z, x);
      return;
    }
    match s
    case Block(b) => r := ExecutionRunSeq(b, e, z, x);
    case IfElse(id, t, f) =>
      if x.Step? {
        r := FailRun([id], z.world, x);
      } else if HeadedBy(id, ConditionalTrue, x) && ExecutesSeq(t, z, x.second) {
        var b := ExecutionRunSeq(t, e, z, x.second);
        r := HeadRun(id, ConditionalTrue, b, z.world, x);
      } else {
        var b := ExecutionRunSeq(f, e, z, x.second);
        r := HeadRun(id, ConditionalFalse, b, z.world, x);
      }
    case IfOnly(id, t) =>
      if x == Step(Refs([id]) + Mark(ConditionalFalse), Fell) {
        r := PassRun([id], ConditionalFalse, z.world, x);
      } else if x.Step? {
        r := FailRun([id], z.world, x);
      } else {
        var b := ExecutionRunSeq(t, e, z, x.second);
        r := HeadRun(id, ConditionalTrue, b, z.world, x);
      }
    case Loop(id, b) => r := LoopRun(s, e, z, x);
    case Repeat(kw, cond, b) => r := RepeatRun(s, e, z, x);
    case Case(id, arms, fallback) => r := CaseRun(s, e, z, x);
    case With(id, b) =>
      if x.Step? {
        r := FailRun([id], z.world, x);
      } else {
        var c := ExecutionRunSeq(b, e, z, x.second);
        r := HeadRun(id, Normally, c, z.world, x);
      }
    case TryFinally(_, b, c) =>
      var a := ExecutionRunSeq(b, e, z, x.first);
      var d := ExecutionRunSeq(c, e, z, x.second.second);
      r := CleanedRun(s, e, z, x, a, d);
    case TryExcept(b, hs) => r := TryExceptRun(s, e, z, x);
  }

  lemma {:induction false} CaseRun(s: Stmt, e: Env, z: Scene, x: Execution) returns (r: Run)
    requires s.Case? && Executes(s, z, x) && Fits(e, z)
    ensures IsRun(s, e, r) && Abstracts(z.world, r, x)
    decreases x, s, 1
  {
    hide Refs, Mark, Abstracts, Fits, IsRunSeq, ExecutesSeq;
    if x == Step(Refs([s.id]) + Mark(CaseArm), Fell) && s.fallback.NoFallback? {
      r := PassRun([s.id], CaseArm, z.world, x);
    } else if x.Step? {
      r := FailRun([s.id], z.world, x);
    } else {
      var b;
      if s.fallback.Fallback? && ExecutesSeq(s.fallback.body, z, x.second) {
        b := ExecutionRunSeq(s.fallback.body, e, z, x.second);
      } else {
        var i :| 0 <= i < |s.arms| && ExecutesSeq(s.arms[i].body, z, x.second);
        b := ExecutionRunSeq(s.arms[i].body, e, z, x.second);
        assert IsRunSeq(s.arms[i].body, e, b);
      }
      r := HeadRun(s.id, CaseArm, b, z.world, x);
    }
  }

  lemma {:induction false} LoopRun(s: Stmt, e: Env, z: Scene, x: Execution) returns (r: Run)
    requires s.Loop? && Executes(s, z, x) && Fits(e, z)
    ensures IsRun(s, e, r) && Abstracts(z.world, r, x)
    decreases x, s, 1
  {
    hide Refs, Mark, Walked, IsRunSeq, ExecutesSeq, Acts;
    if x == Step(Refs([s.id]) + Mark(LoopExit), Fell) {
      r := PassRun([s.id], LoopExit, z.world, x);
    } else if x.Step? {
      r := FailRun([s.id], z.world, x);
    } else {
      var b := ExecutionRunSeq(s.body, e.(inLoop := true), z.(inLoop := true), x.first.second);
      var turn := HeadRun(s.id, ConditionalTrue, b, z.world, x.first);
      NothingActs();
      var rest := Done;
      if x.first.end in {Fell, Continues} {
        var again := ExecutionRun(s, e, z, x.second.second);
        NoCleanups([], LoopBack);
        rest := BehindRun(BackMark(b.out), again, z.world, x.second);
      }
      r := Node(turn, rest, if x.first.end in {Fell, Continues} then rest.out else AfterBreak(b.out));
      NodeActs(turn, rest, r.out, z.world, x);
    }
  }

  lemma {:induction false} RepeatRun(s: Stmt, e: Env, z: Scene, x: Execution) returns (r: Run)
    requires s.Repeat? && Executes(s, z, x) && Fits(e, z)
    ensures IsRun(s, e, r) && Abstracts(z.world, r, x)
    decreases x, s, 1
  {
    hide Refs, Mark, Walked, IsRunSeq, ExecutesSeq, Acts;
    var a := ExecutionRunSeq(s.body, e.(inLoop := true), z.(inLoop := true), x.first);
    var ids := [s.keyword, s.condition];
    NothingActs();
    if x.first.end in {Fell, Continues} {
      var t;
      if x.second == Step(Refs(ids) + Mark(LoopExit), Fell) {
        t := PassRun(ids, LoopExit, z.world, x.second);
      } else if Fails(ids, x.second) {
        t := FailRun(ids, z.world, x.second);
      } else {
        var again := ExecutionRun(s, e, z, x.second.second);
        NoCleanups(ids, LoopBack);
        t := BehindRun(Refs(ids) + Mark(LoopBack), again, z.world, x.second);
      }
      r := Node(a, t, t.out);
      NodeActs(a, t, t.out, z.world, x);
    } else {
      r := Node(a, Done, AfterBreak(a.out));
      NodeActs(a, Done, r.out, z.world, x);
    }
  }

  lemma NoCleanups(ids: seq<StmtId>, way: EdgeKind)
    ensures forall v :: v in Refs(ids) + Mark(way) ==> !v.Cleanup?
    ensures forall v :: v in Mark(way) ==> !v.Cleanup?
  {}

  lemma {:induction false} TryExceptRun(s: Stmt, e: Env, z: Scene, x: Execution) returns (r: Run)
    requires s.TryExcept? && Executes(s, z, x) && Fits(e, z)
    ensures IsRun(s, e, r) && Abstracts(z.world, r, x)
    decreases x, s, 1
  {
    hide Agrees, Descends, OutsSeq, CompletesSeq, Walked, Refs, IsRunSeq, ExecutesSeq;
    var a := ExecutionRunSeq(s.body, e, z, x.first);
    NothingActs();
    if !x.first.end.Throws? {
      r := Node(a, Done, a.out);
      NodeActs(a, Done, r.out, z.world, x);
    } else {
      r := ThrownRun(s, e, z, x, a);
    }
  }

  /** The guarded body has thrown. */
  lemma {:induction false} ThrownRun(s: Stmt, e: Env, z: Scene, x: Execution, a: Run) returns (r: Run)
    requires s.TryExcept? && Executes(s, z, x) && Fits(e, z) && x.first.end.Throws?
    requires IsRunSeq(s.body, e, a) && Abstracts(z.world, a, x.first)
    ensures IsRun(s, e, r) && Abstracts(z.world, r, x)
    decreases x, s, 0
  {
    hide Agrees, Descends, OutsSeq, CompletesSeq, Walked, Refs, IsRunSeq, ExecutesSeq, Mark;
    var c := x.first.end.class_;
    var fact := a.out.fact;
    RunSeqCovered(s.body, e, a);
    NothingActs();
    var incoming := FactsOf(OutsSeq(s.body, e));
    assert fact in incoming;
    if s.handlers == [] {
      var thrown := Leaf(Mark(ExceptionThrow), Normal);
      NoCleanups([], ExceptionThrow);
      LeafActs(Mark(ExceptionThrow), Normal, z.world, x.second);
      r := Node(a, thrown, Normal);
      NodeActs(a, thrown, Normal, z.world, x);
    } else if (forall h :: h in s.handlers ==> !Catches(z.world, h, c)) && x.second == Over && x.end == x.first.end {
      EscapeAgrees(e, z, s.handlers, fact, c);
      r := Node(a, Done, a.out);
      NodeActs(a, Done, a.out, z.world, x);
    } else {
      var i :| 0 <= i < |s.handlers| && FirstCatch(z.world, s.handlers, c, i)
        && ExecutesSeq(s.handlers[i].body, z.(handled := Some(c)), x.second.second);
      CatchAgrees(e, z, s.handlers, incoming, fact, c, i);
      var b := ExecutionRunSeq(s.handlers[i].body, HandlerEnv(e, s.handlers[i], incoming), z.(handled := Some(c)),
                               x.second.second);
      NoCleanups([], ExceptionThrow);
      var handled := BehindRun(Mark(ExceptionThrow), b, z.world, x.second);
      r := Node(a, handled, b.out);
      NodeActs(a, handled, b.out, z.world, x);
    }
  }

  lemma {:induction false} ExecutionRunSeq(ss: seq<Stmt>, e: Env, z: Scene, x: Execution) returns (r: Run)
    requires ExecutesSeq(ss, z, x) && Fits(e, z)
    ensures IsRunSeq(ss, e, r) && Abstracts(z.world, r, x)
    decreases x, ss, 1
  {
    hide Walked, Refs, Mark, Executes, IsRun;
    NothingActs();
    if ss == [] {
      r := Done;
    } else {
      var a := ExecutionRunSeq(ss[..|ss| - 1], e, z, x.first);
      if x.first.end.Fell? {
        var b := ExecutionRun(ss[|ss| - 1], e, z, x.second);
        r := Node(a, b, b.out);
      } else {
        r := Node(a, Done, a.out);
      }
      NodeActs(a, r.second, r.out, z.world, x);
    }
  }
}
