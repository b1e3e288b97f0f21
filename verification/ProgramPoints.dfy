/**
  Places in a routine, and what may follow each of them, read off the syntax alone.

  A point says what stands around a sequence of statements, from the inside out. Every event
  of every run is traced back to the statement it belongs to and to a point where that
  statement stands; what comes after the event is then what may follow the statement there.
  */
module ProgramPoints {
  import opened ExceptionTypes
  import opened PascalSyntax
  import opened StructuredRuns
  import opened Continuations
  import opened ScopePlacement

  // ---- Points

  /** `Cleaning` also says which completion is suspended meanwhile. */
  datatype Point =
    | RoutineEnd
    | Before(next: Stmt, rest: Point)
    | Branch(s: Stmt, body: seq<Stmt>, rest: Point)
    | Turn(s: Stmt, rest: Point)
    | Tried(s: Stmt, rest: Point)
    | Cleaning(s: Stmt, resumes: Outcome, rest: Point)
    | Watched(s: Stmt, rest: Point)
    | Handling(s: Stmt, i: nat, rest: Point)

  /** A part of a statement after which the statement is over. */
  ghost predicate IsBody(s: Stmt, body: seq<Stmt>) {
    match s
    case Block(b) => body == b
    case IfElse(_, t, f) => body == t || body == f
    case IfOnly(_, t) => body == t
    case Case(_, arms, fallback) =>
      (fallback.Fallback? && body == fallback.body) || exists i :: 0 <= i < |arms| && arms[i].body == body
    case With(_, b) => body == b
    case _ => false
  }

  /** The sequence stands at this point of the routine. */
  ghost predicate SitsSeq(root: seq<Stmt>, at: Point, ss: seq<Stmt>)
    decreases at, 0
  {
    match at
    case RoutineEnd => ss == root
    case Before(next, rest) => SitsSeq(root, rest, ss + [next])
    case Branch(s, body, rest) => IsBody(s, body) && ss == body && Sits(root, rest, s)
    case Turn(s, rest) => (s.Loop? || s.Repeat?) && ss == s.body && Sits(root, rest, s)
    case Tried(s, rest) => s.TryFinally? && ss == s.body && Sits(root, rest, s)
    case Cleaning(s, _, rest) => s.TryFinally? && ss == s.cleanup && Sits(root, rest, s)
    case Watched(s, rest) => s.TryExcept? && ss == s.body && Sits(root, rest, s)
    case Handling(s, i, rest) => s.TryExcept? && i < |s.handlers| && ss == s.handlers[i].body && Sits(root, rest, s)
  }

  /** The statement is the last of a sequence that stands at this point. */
  ghost predicate Sits(root: seq<Stmt>, at: Point, s: Stmt)
    decreases at, 1
  {
    exists front :: SitsSeq(root, at, front + [s])
  }

  /** What a statement at this point inherits. */
  ghost function EnvOf(index: TypeIndex, at: Point): Env {
    match at
    case RoutineEnd => StartEnv(index)
    case Turn(_, rest) => EnvOf(index, rest).(inLoop := true)
    case Handling(s, i, rest) =>
      var e := EnvOf(index, rest);
      if s.TryExcept? && i < |s.handlers| then HandlerEnv(e, s.handlers[i], FactsOf(OutsSeq(s.body, e))) else e
    case _ => EnvOf(index, at.rest)
  }

  /** What may follow each completion of a statement at this point. */
  ghost function Onward(index: TypeIndex, at: Point): Kont
    decreases at
  {
    if at.RoutineEnd? then AtBoundary()
    else
      var k, e := Onward(index, at.rest), EnvOf(index, at.rest);
      match at
      case Before(next, _) => WithNormal(k, After(next, e, k))
      case Turn(s, _) => TurnKont(s, e, k)
      case Tried(s, _) => if s.TryFinally? then ThroughFinally(s.scope, s.cleanup, e, k) else k
      case Cleaning(_, o, _) => Resume(k, o)
      case Watched(s, _) => if s.TryExcept? then ThroughExcept(s.handlers, e, FactsOf(OutsSeq(s.body, e)), k) else k
      case _ => k
  }

  // ---- Events and their points

  /**
    The reference belongs to this statement, and what comes is a run of it and what may follow;
    a repeat loop visits its keyword and its condition when a turn is over.
    */
  ghost predicate VisitsAt(index: TypeIndex, root: seq<Stmt>, at: Point, s: Stmt, id: StmtId, after: Trace) {
    && Sits(root, at, s) && id in OwnIds(s)
    && var future := HeadFuture(s, EnvOf(index, at), Onward(index, at));
       after in future || (s.Repeat? && id == s.condition && [Visit(s.keyword)] + after in future)
  }

  /**
    The `try..finally` statement `s` stands here; its body has just completed by the run `b` and its
    cleanup was entered the way that fits. What comes is the cleanup and then, if that ends
    normally, what may follow the completion of the body here, or else what may follow the
    completion of the cleanup.
    */
  ghost predicate CleansAt(index: TypeIndex, root: seq<Stmt>, at: Point, s: Stmt, b: Run, before: Trace, after: Trace) {
    && Sits(root, at, s) && s.TryFinally?
    && IsRunSeq(s.body, EnvOf(index, at), b) && EndsWith(before, Events(b) + Mark(EntryKind(b.out)))
    && after in Finalized(s.scope, b.out, s.cleanup, EnvOf(index, at), Onward(index, at))
  }

  ghost predicate EndsWith(t: Trace, end: Trace) {
    |end| <= |t| && t[|t| - |end|..] == end
  }

  // ---- Ways and what they mean

  /** This way leads from the head of the statement into this body. */
  ghost predicate Opens(s: Stmt, way: EdgeKind, body: seq<Stmt>) {
    match s
    case IfElse(_, t, f) => (way == ConditionalTrue && body == t) || (way == ConditionalFalse && body == f)
    case IfOnly(_, t) => way == ConditionalTrue && body == t
    case Case(_, _, _) => way == CaseArm && IsBody(s, body)
    case With(_, b) => way == Normally && body == b
    case _ => false
  }

  /** This way leads from the head of the statement past it. */
  predicate Skips(s: Stmt, way: EdgeKind) {
    || (s.IfOnly? && way == ConditionalFalse)
    || (s.Case? && s.fallback.NoFallback? && way == CaseArm)
    || (s.Loop? && way == LoopExit)
  }

  /** From the head of the statement, just visited: into a body, past the statement, or into a turn. */
  ghost predicate Enters(s: Stmt, e: Env, k: Kont, way: EdgeKind, before: Trace, rest: Trace) {
    && (s.IfElse? || s.IfOnly? || s.Case? || s.With? || s.Loop?) && EndsWith(before, [Visit(s.id)])
    && (|| (exists body :: Opens(s, way, body) && rest in AfterSeq(body, e, k))
        || (Skips(s, way) && rest in k(Normal))
        || (s.Loop? && way == ConditionalTrue && rest in TurnFuture(s, e, k)))
  }

  /** From the condition of a repeat loop, just visited: out of the loop or to another run of it. */
  ghost predicate Tests(s: Stmt, e: Env, k: Kont, way: EdgeKind, before: Trace, rest: Trace) {
    && s.Repeat? && EndsWith(before, [Visit(s.condition)])
    && ((way == LoopExit && rest in k(Normal)) || (way == LoopBack && rest in After(s, e, k)))
  }

  /** From the end of the body of a loop, just completed normally, to another run of the loop. */
  ghost predicate GoesBack(s: Stmt, e: Env, k: Kont, way: EdgeKind, before: Trace, rest: Trace) {
    && s.Loop? && way == LoopBack && rest in After(s, e, k)
    && exists b :: IsRunSeq(s.body, e.(inLoop := true), b) && b.out.Normal? && EndsWith(before, Events(b))
  }

  /** Into a cleanup: an exception is thrown into it, and any other completion enters it. */
  ghost predicate CleansBy(s: Stmt, e: Env, k: Kont, way: EdgeKind, before: Trace, rest: Trace) {
    && s.TryFinally?
    && exists b ::
         && IsRunSeq(s.body, e, b) && way == EntryKind(b.out) && EndsWith(before, Events(b))
         && rest in Finalized(s.scope, b.out, s.cleanup, e, k)
  }

  /** An exception of a guarded body is thrown to a handler that may receive it. */
  ghost predicate ThrowsTo(s: Stmt, e: Env, k: Kont, way: EdgeKind, before: Trace, rest: Trace) {
    && s.TryExcept? && way == ExceptionThrow
    && exists b ::
         && IsRunSeq(s.body, e, b) && b.out.Raised? && EndsWith(before, Events(b))
         && HandledBy(s, e, k, b.out.fact, rest)
  }

  ghost predicate HandledBy(s: Stmt, e: Env, k: Kont, fact: Fact, rest: Trace)
    requires s.TryExcept?
  {
    || (s.handlers == [] && rest in k(Normal))
    || exists i ::
         && 0 <= i < |s.handlers| && MayCatch(e.index, s.handlers, fact, i)
         && rest in AfterSeq(s.handlers[i].body, HandlerEnv(e, s.handlers[i], FactsOf(OutsSeq(s.body, e))), k)
  }

  /** Where this way has come from and what may follow it. */
  ghost predicate WayAt(
    index: TypeIndex, root: seq<Stmt>, at: Point, s: Stmt, way: EdgeKind, before: Trace, rest: Trace)
  {
    && Sits(root, at, s)
    && var e, k := EnvOf(index, at), Onward(index, at);
       || Enters(s, e, k, way, before, rest)
       || Tests(s, e, k, way, before, rest)
       || GoesBack(s, e, k, way, before, rest)
       || CleansBy(s, e, k, way, before, rest)
       || ThrowsTo(s, e, k, way, before, rest)
  }

  /** The routine is over: an exception is thrown out of it. */
  ghost predicate LeavesBy(index: TypeIndex, root: seq<Stmt>, way: EdgeKind, before: Trace, rest: Trace) {
    && way == ExceptionThrow && rest == []
    && exists r :: IsRunSeq(root, StartEnv(index), r) && r.out.Raised? && before == Events(r)
  }

  ghost predicate Explained(index: TypeIndex, root: seq<Stmt>, before: Trace, after: Trace) {
    && after != []
    && match after[0]
       case Visit(id) => exists at: Point, s: Stmt :: VisitsAt(index, root, at, s, id, after)
       case Via(way) => WayExplained(index, root, way, before, after[1..])
       case Cleanup(f, o) =>
         exists at: Point, s: Stmt, b: Run :: CleansAt(index, root, at, s, b, before, after) && s.scope == f
             && b.out == o
  }

  ghost predicate WayExplained(index: TypeIndex, root: seq<Stmt>, way: EdgeKind, before: Trace, rest: Trace) {
    || (exists at: Point, s: Stmt :: WayAt(index, root, at, s, way, before, rest))
    || LeavesBy(index, root, way, before, rest)
  }

  /** The event at place `n` of a trace. */
  ghost predicate ExplainedAt(index: TypeIndex, root: seq<Stmt>, t: Trace, n: nat) {
    n < |t| && Explained(index, root, t[..n], t[n..])
  }

  lemma Regroup(h: Trace, a: Trace, b: Trace, u: Trace)
    ensures h + (a + b) + u == h + a + (b + u) == (h + a) + b + u
  {}

  /** A statement that starts with a reference of its own. */
  lemma OwnEvent(index: TypeIndex, root: seq<Stmt>, at: Point, s: Stmt, r: Run, head: Trace, u: Trace)
    requires Sits(root, at, s) && IsRun(s, EnvOf(index, at), r) && u in Onward(index, at)(r.out)
    requires !s.Repeat? && Events(r) != [] && Events(r)[0].Visit? && Events(r)[0].id in OwnIds(s)
    ensures ExplainedAt(index, root, head + Events(r) + u, |head|)
  {
    hide IsRun, Sits, Onward, EnvOf, OwnIds;
    var t := head + Events(r) + u;
    assert t[|head|..] == Events(r) + u;
    assert VisitsAt(index, root, at, s, Events(r)[0].id, t[|head|..]);
  }

  lemma OneRef(id: StmtId)
    ensures Refs([id]) == [Visit(id)]
  {}

  /** A way of length one, and what stands before and behind it. */
  lemma WayPlace(head: Trace, way: EdgeKind, rest: Trace)
    requires Mark(way) != []
    ensures var t, n := head + Mark(way) + rest, |head|;
            n < |t| && t[n] == Via(way) && t[..n] == head && t[n + 1..] == rest
  {}

  lemma ByWay(index: TypeIndex, root: seq<Stmt>, head: Trace, way: EdgeKind, rest: Trace, at: Point, s: Stmt)
    requires Mark(way) != [] && WayAt(index, root, at, s, way, head, rest)
    ensures ExplainedAt(index, root, head + Mark(way) + rest, |head|)
  {
    hide WayAt, Mark;
    var t, n := head + Mark(way) + rest, |head|;
    WayPlace(head, way, rest);
    assert t[n..][0] == Via(way) && t[n..][1..] == rest;
  }

  lemma MarkSize(way: EdgeKind)
    ensures |Mark(way)| <= 1
  {}

  lemma EndsHere(head: Trace, end: Trace)
    ensures EndsWith(head + end, end)
  {}

  lemma {:induction false} StmtExplained(
    index: TypeIndex, root: seq<Stmt>, at: Point, s: Stmt, r: Run, head: Trace, u: Trace, n: nat)
    requires Sits(root, at, s) && IsRun(s, EnvOf(index, at), r) && u in Onward(index, at)(r.out)
    requires |head| <= n < |head| + |Events(r)|
    ensures ExplainedAt(index, root, head + Events(r) + u, n)
    decreases r, s, 2
  {
    hide Sits, SitsSeq, Onward, EnvOf, Refs, ExplainedAt, IsRunSeq, Mark;
    match s
    case Block(b) => BodyExplained(index, root, at, s, b, r, head, u, n);
    case IfElse(_, _, _) => BranchExplained(index, root, at, s, r, head, u, n);
    case IfOnly(_, _) => BranchExplained(index, root, at, s, r, head, u, n);
    case Loop(_, _) => LoopExplained(index, root, at, s, r, head, u, n);
    case Repeat(_, _, _) => RepeatExplained(index, root, at, s, r, head, u, n);
    case Case(_, _, _) => BranchExplained(index, root, at, s, r, head, u, n);
    case With(_, _) => BranchExplained(index, root, at, s, r, head, u, n);
    case TryFinally(_, _, _) => FinallyExplained(index, root, at, s, r, head, u, n);
    case TryExcept(_, _) => ExceptExplained(index, root, at, s, r, head, u, n);
    case _ =>
      OneRef(s.id);
      OwnEvent(index, root, at, s, r, head, u);
  }

  /** A statement with one reference at its head and bodies below it. */
  predicate IsBranching(s: Stmt) {
    s.IfElse? || s.IfOnly? || s.Case? || s.With?
  }

  lemma {:induction false} BranchExplained(
    index: TypeIndex, root: seq<Stmt>, at: Point, s: Stmt, r: Run, head: Trace, u: Trace, n: nat)
    requires IsBranching(s) && Sits(root, at, s) && IsRun(s, EnvOf(index, at), r) && u in Onward(index, at)(r.out)
    requires |head| <= n < |head| + |Events(r)|
    ensures ExplainedAt(index, root, head + Events(r) + u, n)
    decreases r, s, 1
  {
    hide Sits, SitsSeq, Onward, EnvOf, Refs, ExplainedAt, IsRun, IsRunSeq, Mark, Opens, OwnIds;
    OneRef(s.id);
    HeadOwned(s);
    if n == |head| {
      HeadFirst(s, EnvOf(index, at), r);
      OwnEvent(index, root, at, s, r, head, u);
    } else if r.Node? {
      var way, body := BranchOf(s, EnvOf(index, at), r);
      HeadedExplained(index, root, at, s, way, body, r, head, u, n);
    } else {
      var way := SkipOf(s, EnvOf(index, at), r);
      SkipExplained(index, root, at, s, way, r, head, u, n);
    }
  }

  lemma HeadOwned(s: Stmt)
    requires IsBranching(s)
    ensures s.id in OwnIds(s)
  {}

  lemma HeadFirst(s: Stmt, e: Env, r: Run)
    requires IsBranching(s) && IsRun(s, e, r)
    ensures Events(r) != [] && Events(r)[0] == Visit(s.id)
  {
    hide IsRunSeq, Mark;
    OneRef(s.id);
    if r.Node? {
      assert Events(r) == Events(r.first) + Events(r.second);
    }
  }

  /** The way that a run takes below the head. */
  lemma BranchOf(s: Stmt, e: Env, r: Run) returns (way: EdgeKind, body: seq<Stmt>)
    requires IsBranching(s) && IsRun(s, e, r) && r.Node?
    ensures Opens(s, way, body) && IsBody(s, body) && IsRunSeq(body, e, r.second) && r.out == r.second.out
    ensures r.first == Leaf(Refs([s.id]) + Mark(way), Normal)
  {
    hide IsRunSeq, Mark, Refs;
    match s
    case IfElse(_, t, f) =>
      if Headed(s.id, ConditionalTrue, r) && IsRunSeq(t, e, r.second) {
        way, body := ConditionalTrue, t;
      } else {
        way, body := ConditionalFalse, f;
      }
    case IfOnly(_, t) => way, body := ConditionalTrue, t;
    case With(_, b) => way, body := Normally, b;
    case Case(_, arms, fallback) =>
      way := CaseArm;
      if fallback.Fallback? && IsRunSeq(fallback.body, e, r.second) {
        body := fallback.body;
      } else {
        var i :| 0 <= i < |arms| && IsRunSeq(arms[i].body, e, r.second);
        body := arms[i].body;
      }
  }

  /** The way of a run that goes past the statement, or no further than its head. */
  lemma SkipOf(s: Stmt, e: Env, r: Run) returns (way: EdgeKind)
    requires IsBranching(s) && IsRun(s, e, r) && r.Leaf?
    ensures r == Leaf(Refs([s.id]), Implicit) || (Skips(s, way) && r == Leaf(Refs([s.id]) + Mark(way), Normal))
  {
    hide IsRunSeq, Mark, Refs;
    way := if s.IfOnly? then ConditionalFalse else CaseArm;
  }

  lemma SkipExplained(
    index: TypeIndex, root: seq<Stmt>, at: Point, s: Stmt, way: EdgeKind, r: Run, head: Trace, u: Trace, n: nat)
    requires (IsBranching(s) || s.Loop?) && Sits(root, at, s) && u in Onward(index, at)(r.out)
    requires r == Leaf(Refs([s.id]), Implicit) || (Skips(s, way) && r == Leaf(Refs([s.id]) + Mark(way), Normal))
    requires |head| < n < |head| + |Events(r)|
    ensures ExplainedAt(index, root, head + Events(r) + u, n)
  {
    hide Sits, SitsSeq, Onward, EnvOf, ExplainedAt, Mark, Refs, AfterSeq, TurnFuture, Opens;
    OneRef(s.id);
    MarkSize(way);
    var here := head + [Visit(s.id)];
    EndsHere(head, [Visit(s.id)]);
    assert Enters(s, EnvOf(index, at), Onward(index, at), way, here, u);
    ByWay(index, root, here, way, u, at, s);
    assert here + Mark(way) + u == head + Events(r) + u;
  }

  /** A part after which the statement is over. */
  lemma {:induction false} BodyExplained(
    index: TypeIndex, root: seq<Stmt>, at: Point, s: Stmt, body: seq<Stmt>, r: Run, head: Trace, u: Trace, n: nat)
    requires Sits(root, at, s) && IsBody(s, body) && IsRunSeq(body, EnvOf(index, at), r)
    requires u in Onward(index, at)(r.out)
    requires |head| <= n < |head| + |Events(r)|
    ensures ExplainedAt(index, root, head + Events(r) + u, n)
    decreases r, body, 3
  {
    var inner := Branch(s, body, at);
    assert SitsSeq(root, inner, body) && EnvOf(index, inner) == EnvOf(index, at)
           && Onward(index, inner) == Onward(index, at);
    hide Sits, SitsSeq, Onward, EnvOf, ExplainedAt, IsRunSeq, IsBody;
    SeqExplained(index, root, inner, body, r, head, u, n);
  }

  /** Below the head: the way into the body, and the body. */
  lemma {:induction false} HeadedExplained(
    index: TypeIndex, root: seq<Stmt>, at: Point, s: Stmt, way: EdgeKind, body: seq<Stmt>, r: Run, head: Trace,
    u: Trace, n: nat)
    requires IsBranching(s) && Sits(root, at, s) && u in Onward(index, at)(r.out)
    requires Opens(s, way, body) && IsBody(s, body)
    requires r.Node? && r.first == Leaf(Refs([s.id]) + Mark(way), Normal) && r.out == r.second.out
    requires IsRunSeq(body, EnvOf(index, at), r.second)
    requires |head| < n < |head| + |Events(r)|
    ensures ExplainedAt(index, root, head + Events(r) + u, n)
    decreases r, s, 0
  {
    hide Sits, SitsSeq, Onward, EnvOf, Refs, ExplainedAt, IsRunSeq, IsBody, Opens, Mark;
    OneRef(s.id);
    MarkSize(way);
    var b, here := r.second, head + [Visit(s.id)];
    assert head + Events(r) + u == here + Mark(way) + (Events(b) + u) == (here + Mark(way)) + Events(b) + u;
    if n < |here + Mark(way)| {
      EndsHere(head, [Visit(s.id)]);
      BodyFollows(body, EnvOf(index, at), Onward(index, at), b, u);
      assert Enters(s, EnvOf(index, at), Onward(index, at), way, here, Events(b) + u);
      ByWay(index, root, here, way, Events(b) + u, at, s);
    } else {
      BodyExplained(index, root, at, s, body, b, here + Mark(way), u, n);
    }
  }

  lemma BodyFollows(body: seq<Stmt>, e: Env, k: Kont, b: Run, u: Trace)
    requires IsRunSeq(body, e, b) && u in k(b.out)
    ensures Events(b) + u in AfterSeq(body, e, k)
  {}

  lemma {:induction false} LoopExplained(
    index: TypeIndex, root: seq<Stmt>, at: Point, s: Stmt, r: Run, head: Trace, u: Trace, n: nat)
    requires s.Loop? && Sits(root, at, s) && IsRun(s, EnvOf(index, at), r) && u in Onward(index, at)(r.out)
    requires |head| <= n < |head| + |Events(r)|
    ensures ExplainedAt(index, root, head + Events(r) + u, n)
    decreases r, s, 1
  {
    hide Sits, SitsSeq, Onward, EnvOf, Refs, ExplainedAt, IsRunSeq, IsRun, Mark, MakesTurn;
    OneRef(s.id);
    LoopCases(s, EnvOf(index, at), r);
    if n == |head| {
      LoopFirst(s, EnvOf(index, at), r);
      OwnEvent(index, root, at, s, r, head, u);
    } else if r.Leaf? {
      SkipExplained(index, root, at, s, LoopExit, r, head, u, n);
    } else {
      TurningExplained(index, root, at, s, r, head, u, n);
    }
  }

  lemma LoopFirst(s: Stmt, e: Env, r: Run)
    requires s.Loop? && IsRun(s, e, r)
    ensures Events(r) != [] && Events(r)[0] == Visit(s.id) && s.id in OwnIds(s)
  {
    hide IsRun, IsRunSeq, Mark;
    OneRef(s.id);
    LoopCases(s, e, r);
  }

  /** What follows the body of a turn. */
  function TurnRest(r: Run, u: Trace): Trace
    requires r.Node? && r.first.Node?
  {
    if r.first.out in {Normal, Continued} && r.second.Node? then BackMark(r.first.out) + (Events(r.second.second) + u)
    else u
  }

  lemma TurnFollows(s: Stmt, e: Env, k: Kont, r: Run, u: Trace)
    requires s.Loop? && MakesTurn(s, e, r) && u in k(r.out)
    ensures TurnRest(r, u) in TurnKont(s, e, k)(r.first.out)
    ensures Events(r.first.second) + TurnRest(r, u) in TurnFuture(s, e, k)
    ensures Events(r) + u == Refs([s.id]) + Mark(ConditionalTrue) + (Events(r.first.second) + TurnRest(r, u))
  {
    hide IsRun, IsRunSeq, Mark, Refs, TurnKont, TurnRest, Events;
    TurnGoesOn(s, e, k, r, u);
    TurnTrace(s, e, r, u);
    BodyFollows(s.body, e.(inLoop := true), TurnKont(s, e, k), r.first.second, TurnRest(r, u));
  }

  lemma TurnGoesOn(s: Stmt, e: Env, k: Kont, r: Run, u: Trace)
    requires s.Loop? && MakesTurn(s, e, r) && u in k(r.out)
    ensures TurnRest(r, u) in TurnKont(s, e, k)(r.first.out)
    ensures r.first.out in {Normal, Continued} ==> Events(r.second.second) + u in After(s, e, k)
  {
    hide IsRun, IsRunSeq, Mark, Refs, Events;
    if r.first.out in {Normal, Continued} {
      AfterRun(s, e, k, r.second.second, u);
      assert r.first.out.Continued? ==> TurnRest(r, u) == Events(r.second.second) + u;
    }
  }

  lemma TurnTrace(s: Stmt, e: Env, r: Run, u: Trace)
    requires s.Loop? && MakesTurn(s, e, r)
    ensures Events(r) + u == Refs([s.id]) + Mark(ConditionalTrue) + (Events(r.first.second) + TurnRest(r, u))
  {
    hide IsRun, IsRunSeq, Mark, Refs, Events, BackMark;
  }

  /** A turn of the loop: the way into the body, the body, the way back and the rest. */
  lemma {:induction false} TurningExplained(
    index: TypeIndex, root: seq<Stmt>, at: Point, s: Stmt, r: Run, head: Trace, u: Trace, n: nat)
    requires s.Loop? && Sits(root, at, s) && MakesTurn(s, EnvOf(index, at), r) && u in Onward(index, at)(r.out)
    requires |head| < n < |head| + |Events(r)|
    ensures ExplainedAt(index, root, head + Events(r) + u, n)
    decreases r, s, 0
  {
    hide Sits, SitsSeq, Onward, EnvOf, Refs, ExplainedAt, IsRunSeq, IsRun, TurnKont, After, TurnFuture;
    OneRef(s.id);
    var e, k := EnvOf(index, at), Onward(index, at);
    TurnFollows(s, e, k, r, u);
    var here, b, rest := head + [Visit(s.id)], r.first.second, TurnRest(r, u);
    var inside := here + Mark(ConditionalTrue);
    assert head + (Events(r) + u) == head + Events(r) + u;
    assert head + Events(r) + u == inside + (Events(b) + rest) == inside + Events(b) + rest;
    if n < |inside| {
      EndsHere(head, [Visit(s.id)]);
      assert Enters(s, e, k, ConditionalTrue, here, Events(b) + rest);
      ByWay(index, root, here, ConditionalTrue, Events(b) + rest, at, s);
    } else if n < |inside| + |Events(b)| {
      TurnExplained(index, root, at, s, b, inside, rest, n);
    } else {
      AgainExplained(index, root, at, s, b, r.second.second, inside, u, n);
    }
  }

  /** Behind the body: the way back, and another run of the loop. */
  lemma {:induction false} AgainExplained(
    index: TypeIndex, root: seq<Stmt>, at: Point, s: Stmt, b: Run, again: Run, inside: Trace, u: Trace, n: nat)
    requires s.Loop? && Sits(root, at, s) && u in Onward(index, at)(again.out)
    requires IsRunSeq(s.body, EnvOf(index, at).(inLoop := true), b) && b.out in {Normal, Continued}
    requires IsRun(s, EnvOf(index, at), again)
    requires |inside + Events(b)| <= n < |inside + Events(b)| + |BackMark(b.out)| + |Events(again)|
    ensures ExplainedAt(index, root, inside + Events(b) + (BackMark(b.out) + (Events(again) + u)), n)
    decreases again, s, 3
  {
    hide Sits, SitsSeq, Onward, EnvOf, ExplainedAt, IsRunSeq, IsRun, After, Mark, Events;
    var ended, mark := inside + Events(b), BackMark(b.out);
    AfterRun(s, EnvOf(index, at), Onward(index, at), again, u);
    assert ended + (mark + (Events(again) + u)) == ended + mark + (Events(again) + u);
    if n < |ended + mark| {
      BackExplained(index, root, at, s, b, inside, Events(again) + u, n);
    } else {
      Regroup(ended, mark, Events(again), u);
      StmtExplained(index, root, at, s, again, ended + mark, u, n);
    }
  }

  lemma BackExplained(index: TypeIndex, root: seq<Stmt>, at: Point, s: Stmt, b: Run, inside: Trace, rest: Trace, n: nat)
    requires s.Loop? && Sits(root, at, s) && rest in After(s, EnvOf(index, at), Onward(index, at))
    requires IsRunSeq(s.body, EnvOf(index, at).(inLoop := true), b) && b.out.Normal?
    requires |inside + Events(b)| <= n < |inside + Events(b) + Mark(LoopBack)|
    ensures ExplainedAt(index, root, inside + Events(b) + Mark(LoopBack) + rest, n)
  {
    hide Sits, SitsSeq, Onward, EnvOf, ExplainedAt, IsRunSeq, After, Mark;
    MarkSize(LoopBack);
    EndsHere(inside, Events(b));
    assert GoesBack(s, EnvOf(index, at), Onward(index, at), LoopBack, inside + Events(b), rest);
    ByWay(index, root, inside + Events(b), LoopBack, rest, at, s);
  }

  /** The body of a loop. */
  lemma {:induction false} TurnExplained(
    index: TypeIndex, root: seq<Stmt>, at: Point, s: Stmt, b: Run, head: Trace, u: Trace, n: nat)
    requires (s.Loop? || s.Repeat?) && Sits(root, at, s) && IsRunSeq(s.body, EnvOf(index, at).(inLoop := true), b)
    requires u in TurnKont(s, EnvOf(index, at), Onward(index, at))(b.out)
    requires |head| <= n < |head| + |Events(b)|
    ensures ExplainedAt(index, root, head + Events(b) + u, n)
    decreases b, s.body, 3
  {
    var inner := Turn(s, at);
    assert SitsSeq(root, inner, s.body) && EnvOf(index, inner) == EnvOf(index, at).(inLoop := true);
    assert Onward(index, inner) == TurnKont(s, EnvOf(index, at), Onward(index, at));
    hide Sits, SitsSeq, Onward, EnvOf, ExplainedAt, IsRunSeq, TurnKont;
    SeqExplained(index, root, inner, s.body, b, head, u, n);
  }

  lemma {:induction false} RepeatExplained(
    index: TypeIndex, root: seq<Stmt>, at: Point, s: Stmt, r: Run, head: Trace, u: Trace, n: nat)
    requires s.Repeat? && Sits(root, at, s) && IsRun(s, EnvOf(index, at), r) && u in Onward(index, at)(r.out)
    requires |head| <= n < |head| + |Events(r)|
    ensures ExplainedAt(index, root, head + Events(r) + u, n)
    decreases r, s, 1
  {
    hide Sits, SitsSeq, Onward, EnvOf, Refs, ExplainedAt, IsRun, IsRunSeq, Mark, TurnKont, Tested;
    RepeatCases(s, EnvOf(index, at), r);
    var b, c := r.first, r.second;
    Regroup(head, Events(b), Events(c), u);
    ConditionFollows(s, EnvOf(index, at), Onward(index, at), r, u);
    if n < |head| + |Events(b)| {
      TurnExplained(index, root, at, s, b, head, Events(c) + u, n);
    } else {
      TestExplained(index, root, at, s, c, head + Events(b), u, n);
    }
  }

  /** The condition of a repeat loop, the way it takes and what comes then. */
  lemma {:induction false} TestExplained(
    index: TypeIndex, root: seq<Stmt>, at: Point, s: Stmt, c: Run, here: Trace, u: Trace, n: nat)
    requires s.Repeat? && Sits(root, at, s) && Tested(s, EnvOf(index, at), c) && u in Onward(index, at)(c.out)
    requires |here| <= n < |here| + |Events(c)|
    ensures ExplainedAt(index, root, here + Events(c) + u, n)
    decreases c, s, 1
  {
    hide Sits, SitsSeq, Onward, EnvOf, ExplainedAt, IsRun, Mark, After;
    TwoRefs(s.keyword, s.condition);
    var t := here + Events(c) + u;
    TestFollows(s, EnvOf(index, at), Onward(index, at), c, u);
    TestBegins(s, EnvOf(index, at), c);
    hide Tested, HeadFuture;
    if n < |here| + 2 {
      assert t[n] == Events(c)[n - |here|];
      assert t[|here|..] == Events(c) + u && (n > |here| ==> t[|here|..] == [Visit(s.keyword)] + t[n..]);
      assert VisitsAt(index, root, at, s, t[n].id, t[n..]);
      ByVisit(index, root, t, n, at, s);
    } else {
      TestWay(index, root, at, s, c, here, u, n);
    }
  }

  lemma TestBegins(s: Stmt, e: Env, c: Run)
    requires s.Repeat? && Tested(s, e, c)
    ensures |Events(c)| >= 2 && Events(c)[..2] == [Visit(s.keyword), Visit(s.condition)]
  {
    hide IsRun, Mark;
    TwoRefs(s.keyword, s.condition);
  }

  lemma {:induction false} TestWay(
    index: TypeIndex, root: seq<Stmt>, at: Point, s: Stmt, c: Run, here: Trace, u: Trace, n: nat)
    requires s.Repeat? && Sits(root, at, s) && Tested(s, EnvOf(index, at), c) && u in Onward(index, at)(c.out)
    requires |here| + 2 <= n < |here| + |Events(c)|
    ensures ExplainedAt(index, root, here + Events(c) + u, n)
    decreases c, s, 0
  {
    hide Sits, SitsSeq, Onward, EnvOf, ExplainedAt, IsRun, After, Refs;
    TwoRefs(s.keyword, s.condition);
    var e, k := EnvOf(index, at), Onward(index, at);
    var seen := here + Refs([s.keyword, s.condition]);
    assert EndsWith(seen, [Visit(s.condition)]);
    if c == Leaf(Refs([s.keyword, s.condition]) + Mark(LoopExit), Normal) {
      assert seen + Mark(LoopExit) + u == here + Events(c) + u;
      assert Tests(s, e, k, LoopExit, seen, u);
      ByWay(index, root, seen, LoopExit, u, at, s);
    } else {
      var again := c.second;
      assert here + Events(c) + u == seen + Mark(LoopBack) + (Events(again) + u)
          == (seen + Mark(LoopBack)) + Events(again) + u;
      if n < |seen + Mark(LoopBack)| {
        AfterIntro(s, e, k, again);
        assert Tests(s, e, k, LoopBack, seen, Events(again) + u) by {
          AfterRun(s, e, k, again, u);
        }
        ByWay(index, root, seen, LoopBack, Events(again) + u, at, s);
      } else {
        StmtExplained(index, root, at, s, again, seen + Mark(LoopBack), u, n);
      }
    }
  }

  lemma AfterRun(s: Stmt, e: Env, k: Kont, r: Run, u: Trace)
    requires IsRun(s, e, r) && u in k(r.out)
    ensures Events(r) + u in After(s, e, k)
  {}

  lemma TwoRefs(a: StmtId, b: StmtId)
    ensures Refs([a, b]) == [Visit(a), Visit(b)]
  {}

  lemma ByVisit(index: TypeIndex, root: seq<Stmt>, t: Trace, n: nat, at: Point, s: Stmt)
    requires n < |t| && t[n].Visit? && VisitsAt(index, root, at, s, t[n].id, t[n..])
    ensures ExplainedAt(index, root, t, n)
  {
    hide VisitsAt;
    assert t[n..][0] == t[n];
  }

  lemma TestFollows(s: Stmt, e: Env, k: Kont, c: Run, u: Trace)
    requires s.Repeat? && Tested(s, e, c) && u in k(c.out)
    ensures Events(c) + u in HeadFuture(s, e, k)
  {
    hide IsRun, Refs, Mark, After;
    var ids := Refs([s.keyword, s.condition]);
    if c == Leaf(ids + Mark(LoopExit), Normal) {
      assert Mark(LoopExit) + u in Behind(Mark(LoopExit), k(Normal));
      assert Events(c) + u == ids + (Mark(LoopExit) + u);
    } else if c == Leaf(ids, Implicit) {
      assert Events(c) + u == ids + u;
    } else {
      AfterRun(s, e, k, c.second, u);
      assert Mark(LoopBack) + (Events(c.second) + u) in Behind(Mark(LoopBack), After(s, e, k));
      assert Events(c) + u == ids + (Mark(LoopBack) + (Events(c.second) + u));
    }
  }

  /** After a turn that does not leave it, a repeat loop goes on with its condition. */
  lemma ConditionFollows(s: Stmt, e: Env, k: Kont, r: Run, u: Trace)
    requires s.Repeat? && IsRun(s, e, r) && u in k(r.out)
    ensures Events(r.second) + u in TurnKont(s, e, k)(r.first.out)
  {
    hide IsRun, IsRunSeq, Refs, Mark, Tested, RepeatCondition;
    RepeatCases(s, e, r);
    TurnCases(s, e, k);
    if r.first.out in {Normal, Continued} {
      TestFollows(s, e, k, r.second, u);
    } else {
      assert Events(r.second) + u == u;
    }
  }

  lemma {:induction false} FinallyExplained(
    index: TypeIndex, root: seq<Stmt>, at: Point, s: Stmt, r: Run, head: Trace, u: Trace, n: nat)
    requires s.TryFinally? && Sits(root, at, s) && IsRun(s, EnvOf(index, at), r) && u in Onward(index, at)(r.out)
    requires |head| <= n < |head| + |Events(r)|
    ensures ExplainedAt(index, root, head + Events(r) + u, n)
    decreases r, s, 1
  {
    hide Sits, SitsSeq, Onward, EnvOf, ExplainedAt, IsRunSeq, Mark, Finalized;
    var b, c := r.first, r.second.second;
    var e, k := EnvOf(index, at), Onward(index, at);
    var mark, clean := Mark(EntryKind(b.out)), [Cleanup(s.scope, b.out)];
    FinallyEvents(s, e, r);
    CleanupFollows(s, e, k, b.out, c, u);
    var ended := head + Events(b);
    var rest := clean + Events(c) + u;
    assert head + Events(r) + u == head + Events(b) + (mark + rest) == ended + mark + rest
        == ((ended + mark) + clean) + Events(c) + u;
    MarkSize(EntryKind(b.out));
    if n < |ended| {
      TriedExplained(index, root, at, s, b, head, mark + rest, n);
    } else if n < |ended + mark| {
      EndsHere(head, Events(b));
      assert CleansBy(s, e, k, EntryKind(b.out), ended, rest);
      ByWay(index, root, ended, EntryKind(b.out), rest, at, s);
    } else if n == |ended + mark| {
      ByCleanup(index, root, head, b, rest, at, s);
    } else {
      CleaningExplained(index, root, at, s, b.out, c, (ended + mark) + clean, u, n);
    }
  }

  lemma FinallyEvents(s: Stmt, e: Env, r: Run)
    requires s.TryFinally? && IsRun(s, e, r)
    ensures Events(r) == Events(r.first)
                         + (Mark(EntryKind(r.first.out)) + ([Cleanup(s.scope, r.first.out)] + Events(r.second.second)))
  {
    hide IsRunSeq, Mark;
    assert Events(r.second) == Entered(s.scope, r.first.out) + Events(r.second.second);
    assert Entered(s.scope, r.first.out) + Events(r.second.second)
        == Mark(EntryKind(r.first.out)) + ([Cleanup(s.scope, r.first.out)] + Events(r.second.second));
  }

  lemma ByCleanup(index: TypeIndex, root: seq<Stmt>, head: Trace, b: Run, rest: Trace, at: Point, s: Stmt)
    requires Sits(root, at, s) && s.TryFinally? && IsRunSeq(s.body, EnvOf(index, at), b)
    requires rest in Finalized(s.scope, b.out, s.cleanup, EnvOf(index, at), Onward(index, at))
    ensures var here := head + Events(b) + Mark(EntryKind(b.out));
            ExplainedAt(index, root, here + rest, |here|)
  {
    hide Sits, EnvOf, Onward, IsRunSeq, Mark, AfterSeq;
    var mark := Mark(EntryKind(b.out));
    var here := head + Events(b) + mark;
    var t, n := here + rest, |here|;
    assert rest != [] && rest[0] == Cleanup(s.scope, b.out);
    EndsHere(head, Events(b) + mark);
    assert head + (Events(b) + mark) == here;
    assert t[..n] == here && t[n..] == rest;
    assert CleansAt(index, root, at, s, b, t[..n], t[n..]);
  }

  lemma CleanupFollows(s: Stmt, e: Env, k: Kont, o: Outcome, c: Run, u: Trace)
    requires s.TryFinally? && IsRunSeq(s.cleanup, e, c) && u in k(if c.out.Normal? then o else c.out)
    ensures [Cleanup(s.scope, o)] + Events(c) + u in Finalized(s.scope, o, s.cleanup, e, k)
  {
    hide IsRunSeq;
    var k' := Resume(k, o);
    assert u in k'(c.out) && Events(c) + u in AfterSeq(s.cleanup, e, k');
    assert [Cleanup(s.scope, o)] + Events(c) + u == [Cleanup(s.scope, o)] + (Events(c) + u);
  }

  lemma {:induction false} TriedExplained(
    index: TypeIndex, root: seq<Stmt>, at: Point, s: Stmt, b: Run, head: Trace, u: Trace, n: nat)
    requires s.TryFinally? && Sits(root, at, s) && IsRunSeq(s.body, EnvOf(index, at), b)
    requires u in Cleaned(s.scope, b.out, s.cleanup, EnvOf(index, at), Onward(index, at))
    requires |head| <= n < |head| + |Events(b)|
    ensures ExplainedAt(index, root, head + Events(b) + u, n)
    decreases b, s.body, 3
  {
    var inner := Tried(s, at);
    assert SitsSeq(root, inner, s.body) && EnvOf(index, inner) == EnvOf(index, at);
    assert Onward(index, inner)(b.out) == Cleaned(s.scope, b.out, s.cleanup, EnvOf(index, at), Onward(index, at));
    hide Sits, SitsSeq, Onward, EnvOf, ExplainedAt, IsRunSeq, Cleaned;
    SeqExplained(index, root, inner, s.body, b, head, u, n);
  }

  lemma {:induction false} CleaningExplained(
    index: TypeIndex, root: seq<Stmt>, at: Point, s: Stmt, o: Outcome, c: Run, head: Trace, u: Trace, n: nat)
    requires s.TryFinally? && Sits(root, at, s) && IsRunSeq(s.cleanup, EnvOf(index, at), c)
    requires u in Onward(index, at)(if c.out.Normal? then o else c.out)
    requires |head| <= n < |head| + |Events(c)|
    ensures ExplainedAt(index, root, head + Events(c) + u, n)
    decreases c, s.cleanup, 3
  {
    var inner := Cleaning(s, o, at);
    assert SitsSeq(root, inner, s.cleanup) && EnvOf(index, inner) == EnvOf(index, at);
    assert u in Onward(index, inner)(c.out);
    hide Sits, SitsSeq, Onward, EnvOf, ExplainedAt, IsRunSeq;
    SeqExplained(index, root, inner, s.cleanup, c, head, u, n);
  }

  lemma {:induction false} ExceptExplained(
    index: TypeIndex, root: seq<Stmt>, at: Point, s: Stmt, r: Run, head: Trace, u: Trace, n: nat)
    requires s.TryExcept? && Sits(root, at, s) && IsRun(s, EnvOf(index, at), r) && u in Onward(index, at)(r.out)
    requires |head| <= n < |head| + |Events(r)|
    ensures ExplainedAt(index, root, head + Events(r) + u, n)
    decreases r, s, 1
  {
    hide Sits, SitsSeq, Onward, EnvOf, ExplainedAt, IsRunSeq, MayCatch, Escapes, OutsSeq, Mark, ThroughExcept;
    hide HandledBy;
    var b, h := r.first, r.second;
    var e, k := EnvOf(index, at), Onward(index, at);
    Regroup(head, Events(b), Events(h), u);
    if n < |head| + |Events(b)| {
      HandlerFollows(s, e, k, r, u);
      WatchedExplained(index, root, at, s, b, head, Events(h) + u, n);
    } else {
      var ended := head + Events(b);
      var hb := HandlerPart(s, e, k, r, u);
      MarkSize(ExceptionThrow);
      assert ended + Events(h) + u == ended + Mark(ExceptionThrow) + (Events(hb) + u)
          == (ended + Mark(ExceptionThrow)) + Events(hb) + u;
      if n < |ended + Mark(ExceptionThrow)| {
        EndsHere(head, Events(b));
        assert ThrowsTo(s, e, k, ExceptionThrow, ended, Events(hb) + u);
        ByWay(index, root, ended, ExceptionThrow, Events(hb) + u, at, s);
      } else {
        var i: nat :| i < |s.handlers|
            && IsRunSeq(s.handlers[i].body, HandlerEnv(e, s.handlers[i], FactsOf(OutsSeq(s.body, e))), hb);
        HandlingExplained(index, root, at, s, i, hb, ended + Mark(ExceptionThrow), u, n);
      }
    }
  }

  ghost predicate RunsHandler(s: Stmt, e: Env, h: Run)
    requires s.TryExcept?
  {
    exists i ::
      && 0 <= i < |s.handlers|
      && IsRunSeq(s.handlers[i].body, HandlerEnv(e, s.handlers[i], FactsOf(OutsSeq(s.body, e))), h)
  }

  /** What runs behind the throw: the handler, or nothing when there is none. */
  lemma HandlerPart(s: Stmt, e: Env, k: Kont, r: Run, u: Trace) returns (hb: Run)
    requires s.TryExcept? && IsRun(s, e, r) && u in k(r.out) && Events(r.second) != []
    ensures r.first.out.Raised? && Events(r.second) == Mark(ExceptionThrow) + Events(hb) && hb.out == r.out
    ensures HandledBy(s, e, k, r.first.out.fact, Events(hb) + u)
    ensures Events(hb) != [] ==> r.second.Node? && hb == r.second.second && RunsHandler(s, e, hb)
  {
    hide IsRunSeq, MayCatch, Escapes, OutsSeq, Mark;
    var incoming := FactsOf(OutsSeq(s.body, e));
    if s.handlers == [] {
      hb := Done;
      assert Events(r.second) == Mark(ExceptionThrow) + Events(hb);
      assert Events(hb) + u == u;
    } else {
      hb := r.second.second;
      var i: nat :| i < |s.handlers| && MayCatch(e.index, s.handlers, r.first.out.fact, i)
        && IsRunSeq(s.handlers[i].body, HandlerEnv(e, s.handlers[i], incoming), hb);
      BodyFollows(s.handlers[i].body, HandlerEnv(e, s.handlers[i], incoming), k, hb, u);
    }
  }

  lemma HandlerFollows(s: Stmt, e: Env, k: Kont, r: Run, u: Trace)
    requires s.TryExcept? && IsRun(s, e, r) && u in k(r.out)
    ensures Events(r.second) + u in ThroughExcept(s.handlers, e, FactsOf(OutsSeq(s.body, e)), k)(r.first.out)
  {
    hide IsRunSeq, MayCatch, Escapes, OutsSeq, Mark, AfterSeq;
    var incoming := FactsOf(OutsSeq(s.body, e));
    if Events(r.second) == [] {
      NoHandlerRan(s, e, r);
      assert Events(r.second) + u == u;
    } else {
      hide IsRun, ThroughExcept;
      var hb := HandlerPart(s, e, k, r, u);
      assert Events(r.second) + u == Mark(ExceptionThrow) + (Events(hb) + u);
      HandledThrough(s, e, k, r.first.out, Events(hb) + u);
    }
  }

  lemma NoHandlerRan(s: Stmt, e: Env, r: Run)
    requires s.TryExcept? && IsRun(s, e, r) && Events(r.second) == []
    ensures r.out == r.first.out && (r.out.Raised? ==> Escapes(e.index, s.handlers, r.out.fact))
  {
    hide IsRunSeq, MayCatch, Escapes, OutsSeq;
  }

  lemma HandledThrough(s: Stmt, e: Env, k: Kont, o: Outcome, rest: Trace)
    requires s.TryExcept? && o.Raised? && HandledBy(s, e, k, o.fact, rest)
    ensures Mark(ExceptionThrow) + rest in ThroughExcept(s.handlers, e, FactsOf(OutsSeq(s.body, e)), k)(o)
  {
    hide IsRunSeq, MayCatch, Escapes, OutsSeq, Mark, AfterSeq;
    var incoming := FactsOf(OutsSeq(s.body, e));
    if s.handlers == [] && rest in k(Normal) {
      assert Mark(ExceptionThrow) + rest in Behind(Mark(ExceptionThrow), k(Normal));
    } else {
      var i: nat :| i < |s.handlers| && MayCatch(e.index, s.handlers, o.fact, i)
        && rest in AfterSeq(s.handlers[i].body, HandlerEnv(e, s.handlers[i], incoming), k);
      assert Mark(ExceptionThrow) + rest in Caught(s.handlers, e, incoming, k, o.fact);
    }
  }

  lemma {:induction false} WatchedExplained(
    index: TypeIndex, root: seq<Stmt>, at: Point, s: Stmt, b: Run, head: Trace, u: Trace, n: nat)
    requires s.TryExcept? && Sits(root, at, s) && IsRunSeq(s.body, EnvOf(index, at), b)
    requires u in ThroughExcept(s.handlers, EnvOf(index, at), FactsOf(OutsSeq(s.body, EnvOf(index, at))),
                                Onward(index, at))(b.out)
    requires |head| <= n < |head| + |Events(b)|
    ensures ExplainedAt(index, root, head + Events(b) + u, n)
    decreases b, s.body, 3
  {
    var inner := Watched(s, at);
    assert SitsSeq(root, inner, s.body) && EnvOf(index, inner) == EnvOf(index, at);
    assert u in Onward(index, inner)(b.out);
    hide Sits, SitsSeq, Onward, EnvOf, ExplainedAt, IsRunSeq, ThroughExcept;
    SeqExplained(index, root, inner, s.body, b, head, u, n);
  }

  lemma {:induction false} HandlingExplained(
    index: TypeIndex, root: seq<Stmt>, at: Point, s: Stmt, i: nat, h: Run, head: Trace, u: Trace, n: nat)
    requires s.TryExcept? && i < |s.handlers| && Sits(root, at, s) && u in Onward(index, at)(h.out)
    requires IsRunSeq(s.handlers[i].body,
                      HandlerEnv(EnvOf(index, at), s.handlers[i], FactsOf(OutsSeq(s.body, EnvOf(index, at)))), h)
    requires |head| <= n < |head| + |Events(h)|
    ensures ExplainedAt(index, root, head + Events(h) + u, n)
    decreases h, s.handlers[i].body, 3
  {
    var inner := Handling(s, i, at);
    assert SitsSeq(root, inner, s.handlers[i].body) && Onward(index, inner) == Onward(index, at);
    assert EnvOf(index, inner)
           == HandlerEnv(EnvOf(index, at), s.handlers[i], FactsOf(OutsSeq(s.body, EnvOf(index, at))));
    hide Sits, SitsSeq, Onward, EnvOf, ExplainedAt, IsRunSeq, HandlerEnv, OutsSeq;
    SeqExplained(index, root, inner, s.handlers[i].body, h, head, u, n);
  }

  lemma {:induction false} SeqExplained(
    index: TypeIndex, root: seq<Stmt>, at: Point, ss: seq<Stmt>, r: Run, head: Trace, u: Trace, n: nat)
    requires SitsSeq(root, at, ss) && IsRunSeq(ss, EnvOf(index, at), r) && u in Onward(index, at)(r.out)
    requires |head| <= n < |head| + |Events(r)|
    ensures ExplainedAt(index, root, head + Events(r) + u, n)
    decreases r, ss, 2
  {
    var front, last := ss[..|ss| - 1], ss[|ss| - 1];
    assert front + [last] == ss;
    var a, b := r.first, r.second;
    var inner := Before(last, at);
    var e, k := EnvOf(index, at), Onward(index, at);
    assert SitsSeq(root, inner, front) && EnvOf(index, inner) == e
           && Onward(index, inner) == WithNormal(k, After(last, e, k));
    assert Sits(root, at, last);
    hide Sits, SitsSeq, Onward, EnvOf, ExplainedAt, IsRun;
    Regroup(head, Events(a), Events(b), u);
    if n < |head| + |Events(a)| {
      if a.out.Normal? {
        AfterIntro(last, e, k, b);
      } else {
        assert Events(b) + u == u;
      }
      SeqExplained(index, root, inner, front, a, head, Events(b) + u, n);
    } else {
      StmtExplained(index, root, at, last, b, head + Events(a), u, n);
    }
  }

  /**
    Every event of every run of a routine belongs to a statement at a point, and what comes after it
    is what may follow there.
    */
  lemma RunExplained(index: TypeIndex, root: seq<Stmt>, r: Run, n: nat)
    requires IsRunSeq(root, StartEnv(index), r) && n < |Events(r) + LeaveMark(r.out)|
    ensures var t := Events(r) + LeaveMark(r.out);
            Explained(index, root, t[..n], t[n..])
  {
    hide IsRunSeq, Explained;
    var t := Events(r) + LeaveMark(r.out);
    if n < |Events(r)| {
      assert SitsSeq(root, RoutineEnd, root);
      SeqExplained(index, root, RoutineEnd, root, r, [], LeaveMark(r.out), n);
      assert [] + Events(r) + LeaveMark(r.out) == t;
    } else {
      assert t[..n] == Events(r) && t[n..] == [Via(ExceptionThrow)];
      LeavingExplained(index, root, r);
    }
  }

  lemma LeavingExplained(index: TypeIndex, root: seq<Stmt>, r: Run)
    requires IsRunSeq(root, StartEnv(index), r) && r.out.Raised?
    ensures Explained(index, root, Events(r), [Via(ExceptionThrow)])
  {
    hide IsRunSeq;
    assert LeavesBy(index, root, ExceptionThrow, Events(r), []);
    assert [Via(ExceptionThrow)][1..] == [];
  }
}
