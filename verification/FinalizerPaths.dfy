/**
  What the paths of a finished routine do: every reference, every edge and every finalizer on the
  way from entry to exit, the cleanups that must run, and where jumps and exceptions go.
  */
module FinalizerPaths {
  import opened ExceptionTypes
  import opened PascalSyntax
  import opened StructuredRuns
  import opened Continuations
  import opened ControlFlowGraph
  import opened PendingTransfers
  import opened ScopePlacement
  import opened BuilderWorld
  import opened BuilderLaws
  import opened RoutineLaws
  import opened ProgramPoints
  import opened Unwinding

  // ---- Places on a path

  /** The block that a path from the entry has come to after `i` edges. */
  function At(q: seq<Edge>, i: nat): BlockId
    requires i <= |q|
  {
    BlockAt(ENTRY, q, i)
  }

  /** What a path has left behind before that block. */
  function Before(g: Graph, q: seq<Edge>, i: nat): Trace
    requires i <= |q|
  {
    FrontTrace(g, ENTRY, q[..i])
  }

  lemma PathSplit(g: Graph, q: seq<Edge>, i: nat)
    requires i <= |q|
    ensures PathTrace(g, ENTRY, q) == Before(g, q, i) + PathTrace(g, At(q, i), q[i..])
  {
    hide FrontTrace, PathTrace;
    assert q == q[..i] + q[i..];
    JoinedTrace(g, ENTRY, q[..i], q[i..]);
  }

  /** What a path leaves behind from reference `j` of its block `i` on. */
  function TraceFrom(g: Graph, q: seq<Edge>, i: nat, j: nat): Trace
    requires i <= |q| && j <= |g.Stmts(At(q, i))|
  {
    Refs(g.Stmts(At(q, i))[j..]) + StepsTrace(g, q[i..])
  }

  lemma RefsSplit(ids: seq<StmtId>, j: nat)
    requires j <= |ids|
    ensures Refs(ids) == Refs(ids[..j]) + Refs(ids[j..]) && |Refs(ids[..j])| == j
  {}

  lemma AfterParts(a: Trace, b: Trace, c: Trace, d: Trace, e: Trace)
    ensures (a + (b + (c + d) + e))[|a| + |b| + |c|..] == d + e
  {}

  lemma PlaceOf(g: Graph, q: seq<Edge>, i: nat, j: nat)
    requires i <= |q| && At(q, i) < |g.blocks| && j <= |g.Stmts(At(q, i))|
    ensures var n := |Before(g, q, i)| + |g.Lead(At(q, i))| + j;
            n <= |PathTrace(g, ENTRY, q)| && PathTrace(g, ENTRY, q)[n..] == TraceFrom(g, q, i, j)
  {
    hide Refs, StepsTrace, Before, TextOf;
    var b := At(q, i);
    var ids, rest := g.Stmts(b), StepsTrace(g, q[i..]);
    PathSplit(g, q, i);
    BlockText(g, b);
    RefsSplit(ids, j);
    AfterParts(Before(g, q, i), g.Lead(b), Refs(ids[..j]), Refs(ids[j..]), rest);
  }

  lemma BlockText(g: Graph, b: BlockId)
    ensures g.Content(b) == g.Lead(b) + Refs(g.Stmts(b))
  {}

  lemma BlocksInside(g: Graph, q: seq<Edge>, i: nat)
    requires Connects(g, q, ENTRY, EXIT) && i <= |q|
    ensures At(q, i) < |g.blocks|
  {
    if i > 0 {
      assert EdgeAt(g, ENTRY, q, i - 1);
    }
  }

  /** Every event on the way from entry to exit is explained by the routine. */
  lemma OnPath(g: Graph, index: TypeIndex, root: seq<Stmt>, q: seq<Edge>, n: nat)
    requires PathsHaveRuns(g, index, root) && Connects(g, q, ENTRY, EXIT) && n < |PathTrace(g, ENTRY, q)|
    ensures Explained(index, root, PathTrace(g, ENTRY, q)[..n], PathTrace(g, ENTRY, q)[n..])
  {
    hide IsRunSeq, Explained, Connects, PathTrace;
    var r :| IsRunSeq(root, StartEnv(index), r) && Crossing(r) == PathTrace(g, ENTRY, q);
    RunExplained(index, root, r, n);
  }

  // ---- Edges

  lemma EdgePlace(g: Graph, q: seq<Edge>, i: nat)
    requires i < |q| && Mark(q[i].kind) != []
    ensures var t, n := PathTrace(g, ENTRY, q), |PathTrace(g, ENTRY, q[..i])|;
            && n < |t| && t[..n] == PathTrace(g, ENTRY, q[..i]) && t[n] == Via(q[i].kind)
            && t[n + 1..] == PathTrace(g, q[i].dst, q[i + 1..])
  {
    hide PathTrace, StepsTrace;
    assert q[..i + 1][..i] == q[..i] && q[..i + 1][i] == q[i];
    PathSplit(g, q, i + 1);
    WayPlace(PathTrace(g, ENTRY, q[..i]), q[i].kind, PathTrace(g, q[i].dst, q[i + 1..]));
  }

  /**
    What the kind of an edge says, on the way from entry to exit. Into the true branch, the false
    branch or an arm, into a turn of a loop, back to its head or out of it: the statement that
    decides stands at a point of the routine and has just been visited, and the rest of the path is
    what may follow that decision. A throw carries an exception, into a handler that may receive it,
    into a cleanup or out of the routine; a cleanup is entered without one for any other completion.
    */
  lemma WayOnPath(g: Graph, index: TypeIndex, root: seq<Stmt>, q: seq<Edge>, i: nat)
    requires PathsHaveRuns(g, index, root) && Connects(g, q, ENTRY, EXIT) && i < |q| && Mark(q[i].kind) != []
    ensures WayExplained(index, root, q[i].kind, PathTrace(g, ENTRY, q[..i]), PathTrace(g, q[i].dst, q[i + 1..]))
  {
    hide WayExplained, PathsHaveRuns, Connects, PathTrace, Mark;
    var t, n := PathTrace(g, ENTRY, q), |PathTrace(g, ENTRY, q[..i])|;
    EdgePlace(g, q, i);
    OnPath(g, index, root, q, n);
    assert t[n..][0] == t[n] && t[n..][1..] == t[n + 1..];
  }

  /** A conditional that has just been visited takes its true branch by this edge, or its false one. */
  lemma BranchOnPath(g: Graph, index: TypeIndex, root: seq<Stmt>, q: seq<Edge>, i: nat)
    returns (at: Point, s: Stmt)
    requires PathsHaveRuns(g, index, root) && Connects(g, q, ENTRY, EXIT)
    requires i < |q| && (q[i].kind == ConditionalTrue || q[i].kind == ConditionalFalse)
    ensures Sits(root, at, s) && (s.IfElse? || s.IfOnly? || (s.Loop? && q[i].kind == ConditionalTrue))
    ensures EndsWith(PathTrace(g, ENTRY, q[..i]), [Visit(s.id)])
    ensures var e, k, rest := EnvOf(index, at), Onward(index, at), PathTrace(g, q[i].dst, q[i + 1..]);
            if s.Loop? then rest in TurnFuture(s, e, k)
            else if q[i].kind == ConditionalTrue then rest in AfterSeq(s.thenBody, e, k)
            else if s.IfElse? then rest in AfterSeq(s.elseBody, e, k)
            else rest in k(Normal)
  {
    hide Sits, EnvOf, Onward, AfterSeq, PathsHaveRuns, Connects, PathTrace, TurnFuture, IsRunSeq, WayAt;
    var before, rest := PathTrace(g, ENTRY, q[..i]), PathTrace(g, q[i].dst, q[i + 1..]);
    WayOnPath(g, index, root, q, i);
    at, s :| WayAt(index, root, at, s, q[i].kind, before, rest);
    DecisionAt(index, root, at, s, q[i].kind, before, rest);
  }

  lemma DecisionAt(index: TypeIndex, root: seq<Stmt>, at: Point, s: Stmt, way: EdgeKind, before: Trace, rest: Trace)
    requires WayAt(index, root, at, s, way, before, rest) && (way == ConditionalTrue || way == ConditionalFalse)
    ensures Sits(root, at, s) && (s.IfElse? || s.IfOnly? || (s.Loop? && way == ConditionalTrue))
    ensures EndsWith(before, [Visit(s.id)])
    ensures var e, k := EnvOf(index, at), Onward(index, at);
            if s.Loop? then rest in TurnFuture(s, e, k)
            else if way == ConditionalTrue then rest in AfterSeq(s.thenBody, e, k)
            else if s.IfElse? then rest in AfterSeq(s.elseBody, e, k)
            else rest in k(Normal)
  {
    hide Sits, EnvOf, Onward, AfterSeq, TurnFuture, After, IsRunSeq, Finalized, HandledBy, EndsWith;
  }

  // ---- Finalizers

  predicate IsFinalizer(g: Graph, b: BlockId, f: ScopeId) {
    b < |g.blocks| && g.blocks[b].kind.FinallyHandler? && g.blocks[b].kind.scope == f
  }

  /**
    A finalizer on the way from entry to exit: its `try..finally` stands at a point of the routine,
    the body of that statement has just completed with the completion that the block names, the
    cleanup was entered by a throw exactly for an exception, the path goes on with a whole run of
    the cleanup and then, if that ends normally, with what may follow the same completion there.
    */
  lemma CleanupOnPath(g: Graph, index: TypeIndex, root: seq<Stmt>, q: seq<Edge>, i: nat)
    returns (at: Point, s: Stmt, b: Run, c: Run, u: Trace)
    requires PathsHaveRuns(g, index, root) && Connects(g, q, ENTRY, EXIT)
    requires i <= |q| && At(q, i) < |g.blocks| && g.blocks[At(q, i)].kind.FinallyHandler?
    ensures Sits(root, at, s) && s.TryFinally? && g.blocks[At(q, i)].kind == FinallyHandler(s.scope, b.out)
    ensures IsRunSeq(s.body, EnvOf(index, at), b)
    ensures EndsWith(Before(g, q, i), Events(b) + Mark(EntryKind(b.out)))
    ensures CleansUp(index, Guard(s.scope, s.cleanup, at), b.out, c, u, PathTrace(g, At(q, i), q[i..]))
  {
    hide Sits, EnvOf, Onward, IsRunSeq, Finalized, PathsHaveRuns, Connects, FrontTrace, StepsTrace, Mark;
    var t, n := PathTrace(g, ENTRY, q), |Before(g, q, i)|;
    var kind := g.blocks[At(q, i)].kind;
    PathSplit(g, q, i);
    assert t[..n] == Before(g, q, i) && t[n..] == PathTrace(g, At(q, i), q[i..]);
    assert t[n..][0] == Cleanup(kind.scope, kind.resumes);
    OnPath(g, index, root, q, n);
    at, s, b :| CleansAt(index, root, at, s, b, t[..n], t[n..]) && s.scope == kind.scope && b.out == kind.resumes;
    c, u := FinalizedParts(s.scope, b.out, s.cleanup, EnvOf(index, at), Onward(index, at), t[n..]);
  }

  /** Every cleanup that a path runs starts in a finalizer block made for it. */
  lemma {:induction false} CleanupHasBlock(g: Graph, q: seq<Edge>, n: nat) returns (i: nat)
    requires IsPath(g, ENTRY, q) && n < |PathTrace(g, ENTRY, q)| && PathTrace(g, ENTRY, q)[n].Cleanup?
    ensures i <= |q| && |Before(g, q, i)| == n && At(q, i) < |g.blocks|
    ensures g.blocks[At(q, i)].kind
            == FinallyHandler(PathTrace(g, ENTRY, q)[n].scope, PathTrace(g, ENTRY, q)[n].resumes)
    decreases |q|
  {
    hide PathTrace, FrontTrace, IsPath;
    var front, last := FrontTrace(g, ENTRY, q), EndOf(ENTRY, q);
    FrontAndLast(g, ENTRY, q);
    EndInside(g, ENTRY, q);
    if n >= |front| {
      i := |q|;
      assert q[..i] == q;
      assert PathTrace(g, ENTRY, q)[n] == g.Content(last)[n - |front|];
    } else {
      NoFront(g, q);
      var m := |q| - 1;
      FrontPath(g, ENTRY, q);
      EarlierCleanup(g, q, n);
      i := CleanupHasBlock(g, q[..m], n);
      assert q[..m][..i] == q[..i];
    }
  }

  lemma NoFront(g: Graph, q: seq<Edge>)
    ensures FrontTrace(g, ENTRY, q) != [] ==> q != []
  {}

  lemma EarlierCleanup(g: Graph, q: seq<Edge>, n: nat)
    requires q != [] && n < |FrontTrace(g, ENTRY, q)| && PathTrace(g, ENTRY, q)[n].Cleanup?
    requires n < |PathTrace(g, ENTRY, q)|
    ensures n < |PathTrace(g, ENTRY, q[..|q| - 1])|
    ensures PathTrace(g, ENTRY, q[..|q| - 1])[n] == PathTrace(g, ENTRY, q)[n]
  {
    hide PathTrace;
    FrontAndLast(g, ENTRY, q);
  }

  // ---- References

  /**
    A reference on the way from entry to exit belongs to a statement at a point, and the rest of the
    path is what may follow there.
    */
  lemma VisitOnPath(g: Graph, index: TypeIndex, root: seq<Stmt>, q: seq<Edge>, i: nat, j: nat)
    returns (at: Point, s: Stmt)
    requires PathsHaveRuns(g, index, root) && Connects(g, q, ENTRY, EXIT) && i <= |q| && j < |g.Stmts(At(q, i))|
    ensures VisitsAt(index, root, at, s, g.Stmts(At(q, i))[j], TraceFrom(g, q, i, j))
  {
    hide VisitsAt, PathsHaveRuns, TextOf, Connects, Before, TraceFrom, PathTrace;
    BlocksInside(g, q, i);
    var t, n := PathTrace(g, ENTRY, q), |Before(g, q, i)| + |g.Lead(At(q, i))| + j;
    PlaceOf(g, q, i, j);
    NextRef(g, q, i, j);
    assert t[n..][0] == Visit(g.Stmts(At(q, i))[j]);
    OnPath(g, index, root, q, n);
    at, s :| VisitsAt(index, root, at, s, g.Stmts(At(q, i))[j], t[n..]);
  }

  /** What comes after a reference is something, and then what may follow its statement. */
  lemma VisitParts(index: TypeIndex, root: seq<Stmt>, at: Point, s: Stmt, id: StmtId, t: Trace)
    returns (x: Trace, u: Trace, o: Outcome)
    requires VisitsAt(index, root, at, s, id, t)
    ensures t == x + u && u in Onward(index, at)(o)
  {
    hide Sits, EnvOf, Onward, HeadFuture;
    var e, k := EnvOf(index, at), Onward(index, at);
    if t in HeadFuture(s, e, k) {
      x, u, o := HeadParts(s, e, k, t);
    } else {
      var y;
      y, u, o := HeadParts(s, e, k, [Visit(s.keyword)] + t);
      x := y[1..];
      assert [Visit(s.keyword)] + t == y + u && t == ([Visit(s.keyword)] + t)[1..] == y[1..] + u;
    }
  }

  /**
    Behind every reference, the path runs the cleanups of all `try..finally` statements around it,
    innermost first, each ended before the next starts and each resuming what it was entered with.
    */
  lemma UnwindsInOrder(g: Graph, index: TypeIndex, root: seq<Stmt>, q: seq<Edge>, i: nat, j: nat)
    returns (at: Point, s: Stmt)
    requires PathsHaveRuns(g, index, root) && Connects(g, q, ENTRY, EXIT) && i <= |q| && j < |g.Stmts(At(q, i))|
    ensures Sits(root, at, s) && g.Stmts(At(q, i))[j] in OwnIds(s)
    ensures RunsInOrder(index, AllTried(at), TraceFrom(g, q, i, j))
  {
    hide Sits, EnvOf, Onward, HeadFuture, OwnIds, RunsInOrder, TraceFrom, PathsHaveRuns, Connects;
    at, s := VisitOnPath(g, index, root, q, i, j);
    var t := TraceFrom(g, q, i, j);
    var x, u, o := VisitParts(index, root, at, s, g.Stmts(At(q, i))[j], t);
    FollowsInOrder(index, at, o, u);
    LaterInOrder(index, AllTried(at), x, u);
  }

  lemma {:induction false} InOrderHas(index: TypeIndex, ps: seq<Guard>, t: Trace, k: nat) returns (n: nat)
    requires RunsInOrder(index, ps, t) && k < |ps|
    ensures n < |t| && t[n].Cleanup? && t[n].scope == ps[k].scope
    decreases |ps|
  {
    hide EnvOf, Onward, IsRunSeq;
    var m: nat, o: Outcome, c: Run, u: Trace :| RunsFirst(index, ps, t, m, o, c, u);
    if k == 0 {
      n := m;
      assert t[m] == t[m..][0] == Cleanup(ps[0].scope, o);
    } else {
      var n' := InOrderHas(index, ps[1..], u, k - 1);
      n := m + 1 + |Events(c)| + n';
      assert t[n] == t[m..][n - m] == u[n'];
    }
  }

  /** Every statement that holds the reference stands in the body of the `try..finally` with scope `f`. */
  ghost predicate ProtectedBy(root: seq<Stmt>, id: StmtId, f: ScopeId) {
    forall at: Point, s: Stmt :: Sits(root, at, s) && id in OwnIds(s) ==> f in ScopesAt(at)
  }

  lemma {:induction false} ScopeGuard(at: Point, f: ScopeId) returns (k: nat)
    requires f in ScopesAt(at)
    ensures k < |AllTried(at)| && AllTried(at)[k].scope == f
    decreases at
  {
    if IsTried(at) && at.s.scope == f {
      k := 0;
    } else {
      k := ScopeGuard(at.rest, f);
      if IsTried(at) {
        k := k + 1;
      }
    }
  }

  /** Behind a protected reference the path comes to a finalizer of the scope and cleans up there. */
  lemma FinalizersDominate(g: Graph, index: TypeIndex, root: seq<Stmt>, q: seq<Edge>, i: nat, j: nat, f: ScopeId)
    returns (m: nat, at: Point, s: Stmt, b: Run, c: Run, u: Trace)
    requires PathsHaveRuns(g, index, root) && Connects(g, q, ENTRY, EXIT) && i <= |q| && j < |g.Stmts(At(q, i))|
    requires ProtectedBy(root, g.Stmts(At(q, i))[j], f)
    ensures i < m <= |q| && IsFinalizer(g, At(q, m), f)
    ensures Sits(root, at, s) && s.TryFinally? && g.blocks[At(q, m)].kind == FinallyHandler(s.scope, b.out)
    ensures IsRunSeq(s.body, EnvOf(index, at), b)
    ensures EndsWith(Before(g, q, m), Events(b) + Mark(EntryKind(b.out)))
    ensures CleansUp(index, Guard(s.scope, s.cleanup, at), b.out, c, u, PathTrace(g, At(q, m), q[m..]))
  {
    hide Sits, EnvOf, Onward, OwnIds, RunsInOrder, PathsHaveRuns, CleansUp, IsRunSeq, EndsWith, AllTried, ScopesAt;
    hide Before, TraceFrom, TextOf, PathTrace, At;
    var here, around := UnwindsInOrder(g, index, root, q, i, j);
    var k := ScopeGuard(here, f);
    var n := InOrderHas(index, AllTried(here), TraceFrom(g, q, i, j), k);
    BlocksInside(g, q, i);
    PlaceOf(g, q, i, j);
    var place := |Before(g, q, i)| + |g.Lead(At(q, i))| + j;
    assert PathTrace(g, ENTRY, q)[place + n] == PathTrace(g, ENTRY, q)[place..][n];
    NextRef(g, q, i, j);
    m := CleanupHasBlock(g, q, place + n);
    if m <= i {
      BeforeGrows(g, q, m, i);
    }
    at, s, b, c, u := CleanupOnPath(g, index, root, q, m);
  }

  lemma {:induction false} BeforeGrows(g: Graph, q: seq<Edge>, i: nat, j: nat)
    requires i <= j <= |q|
    ensures |Before(g, q, i)| <= |Before(g, q, j)|
    decreases j
  {
    hide Before;
    if i < j {
      BeforeGrows(g, q, i, j - 1);
      BeforeStep(g, q, j - 1);
    }
  }

  lemma BeforeStep(g: Graph, q: seq<Edge>, i: nat)
    requires i < |q|
    ensures |Before(g, q, i)| <= |Before(g, q, i + 1)|
  {
    hide PathTrace, Mark, TextOf;
    assert q[..i + 1][..i] == q[..i];
    FrontAndLast(g, ENTRY, q[..i]);
  }

  // ---- Jumps

  /** The reference belongs to this statement only. */
  ghost predicate BelongsTo(root: seq<Stmt>, id: StmtId, s: Stmt) {
    forall at: Point, other: Stmt :: Sits(root, at, other) && id in OwnIds(other) ==> other == s
  }

  function JumpOf(s: Stmt): Outcome {
    if s.Break? then Broke else Continued
  }

  /** Where a jump goes on, all cleanups on its way done. */
  ghost function AfterJump(index: TypeIndex, s: Stmt, loop: Point): Future
    requires loop.Turn?
  {
    var e, k := EnvOf(index, loop.rest), Onward(index, loop.rest);
    if s.Break? then k(Normal) else HeadFuture(loop.s, e, k)
  }

  /**
    A Break or Continue inside a loop, on the way from entry to exit. What comes behind it is
    cleanups of the `try..finally` statements between it and its innermost loop, innermost first
    and each ended before the next; if all end normally, the path goes on after that loop for a
    Break and at its head for a Continue, and otherwise with the completion of the last cleanup.
    */
  lemma JumpOnPath(g: Graph, index: TypeIndex, root: seq<Stmt>, q: seq<Edge>, i: nat, j: nat, s: Stmt)
    returns (at: Point, cs: seq<Run>, u: Trace)
    requires PathsHaveRuns(g, index, root) && Connects(g, q, ENTRY, EXIT) && i <= |q| && j < |g.Stmts(At(q, i))|
    requires (s.Break? || s.Continue?) && g.Stmts(At(q, i))[j] == s.id && BelongsTo(root, s.id, s)
    ensures Sits(root, at, s)
    ensures LoopsAround(at) == [] ==> UnwindsBy(index, at, Exited, TraceFrom(g, q, i, j + 1), cs, u)
    ensures LoopsAround(at) != [] ==>
              var loop, ps := LoopsAround(at)[0], Passed(at, JumpOf(s));
              && loop.Turn? && loop == Taker(at, JumpOf(s))
              && |cs| <= |ps| && CleanupRuns(index, ps, cs)
              && TraceFrom(g, q, i, j + 1) == Cleanups(ps, JumpOf(s), cs) + u
              && if cs != [] && !cs[|cs| - 1].out.Normal? then u in Onward(index, ps[|cs| - 1].at)(cs[|cs| - 1].out)
                 else |cs| == |ps| && u in AfterJump(index, s, loop)
  {
    hide Sits, EnvOf, Onward, PathsHaveRuns, Connects, TraceFrom, Taker, Passed, LoopsAround, CleanupRuns, Cleanups;
    var other;
    at, other := VisitOnPath(g, index, root, q, i, j);
    assert other == s;
    var o := LoopJump(EnvOf(index, at), JumpOf(s));
    InLoops(index, at);
    var rest := TraceFrom(g, q, i, j + 1);
    LeafRest(s, EnvOf(index, at), Onward(index, at), o, TraceFrom(g, q, i, j));
    NextRef(g, q, i, j);
    cs, u := Unwinds(index, at, o, rest);
    if LoopsAround(at) != [] {
      JumpsInnermost(index, at, o);
    }
  }

  lemma NextRef(g: Graph, q: seq<Edge>, i: nat, j: nat)
    requires i <= |q| && j < |g.Stmts(At(q, i))|
    ensures TraceFrom(g, q, i, j) == [Visit(g.Stmts(At(q, i))[j])] + TraceFrom(g, q, i, j + 1)
  {
    hide StepsTrace;
    var ids := g.Stmts(At(q, i));
    assert Refs(ids[j..]) == [Visit(ids[j])] + Refs(ids[j + 1..]);
  }

  lemma LeafRest(s: Stmt, e: Env, k: Kont, o: Outcome, t: Trace)
    requires (s.Break? || s.Continue?) && o == LoopJump(e, JumpOf(s)) && t in After(s, e, k)
    ensures t != [] && t[1..] in k(o)
  {
    OneRef(s.id);
    var r: Run, v: Trace :| IsRun(s, e, r) && v in k(r.out) && t == Events(r) + v;
    assert t[1..] == v;
  }

  // ---- Raised exceptions

  /** Where the `try..except` at this point sends an exception, by the declarations alone. */
  ghost predicate Receives(index: TypeIndex, watch: Point, o: Outcome, u: Trace)
    requires watch.Watched? && watch.s.TryExcept? && o.Raised?
  {
    var hs, e, k := watch.s.handlers, EnvOf(index, watch.rest), Onward(index, watch.rest);
    || (hs == [] && u in Behind([Via(ExceptionThrow)], k(Normal)))
    || (hs != [] && (forall h :: h in hs ==> !CatchesSurely(index, h, o.fact)) && u in k(o))
    || exists i ::
         && 0 <= i < |hs| && (forall j :: 0 <= j < i ==> !CatchesSurely(index, hs[j], o.fact))
         && !MissesSurely(index, hs[i], o.fact)
         && u in Behind([Via(ExceptionThrow)],
                        AfterSeq(hs[i].body, HandlerEnv(e, hs[i], FactsOf(OutsSeq(watch.s.body, e))), k))
  }

  /**
    A raise of a class that is known, on the way from entry to exit. What comes behind it is the
    cleanups between it and the innermost `try..except` around it, innermost first and each ended
    before the next; if all end normally, a throw to a handler of that statement that the class may
    reach and that no earlier handler surely forestalls, or past all handlers if none surely catches
    the class; without a `try..except` around it, a throw out of the routine.
    */
  lemma RaiseOnPath(g: Graph, index: TypeIndex, root: seq<Stmt>, q: seq<Edge>, i: nat, j: nat, s: Stmt)
    returns (at: Point, cs: seq<Run>, u: Trace)
    requires PathsHaveRuns(g, index, root) && Connects(g, q, ENTRY, EXIT) && i <= |q| && j < |g.Stmts(At(q, i))|
    requires s.Raise? && s.constructed.Some? && !s.evaluates
    requires g.Stmts(At(q, i))[j] == s.id && BelongsTo(root, s.id, s)
    ensures Sits(root, at, s)
    ensures var o := Raised(Known(s.constructed.value), LowerName(s.spelling));
            var ps, watch := Passed(at, o), Taker(at, o);
            && |cs| <= |ps| && CleanupRuns(index, ps, cs)
            && TraceFrom(g, q, i, j + 1) == Cleanups(ps, o, cs) + u
            && if cs != [] && !cs[|cs| - 1].out.Normal? then u in Onward(index, ps[|cs| - 1].at)(cs[|cs| - 1].out)
               else
                 && |cs| == |ps|
                 && if watch.RoutineEnd? then u == [Via(ExceptionThrow)]
                    else watch.Watched? && watch.s.TryExcept? && Receives(index, watch, o, u)
  {
    hide Sits, EnvOf, Onward, PathsHaveRuns, Connects, TraceFrom, Taker, Passed, CleanupRuns, Cleanups, Receives;
    var other;
    at, other := VisitOnPath(g, index, root, q, i, j);
    assert other == s;
    var o := Raised(Known(s.constructed.value), LowerName(s.spelling));
    RaiseRest(s, EnvOf(index, at), Onward(index, at), o, TraceFrom(g, q, i, j));
    NextRef(g, q, i, j);
    cs, u := Unwinds(index, at, o, TraceFrom(g, q, i, j + 1));
    if cs == [] || cs[|cs| - 1].out.Normal? {
      TakerProper(root, at, s, o);
      TakenBy(index, Taker(at, o), o, u);
    }
  }

  lemma RaiseRest(s: Stmt, e: Env, k: Kont, o: Outcome, t: Trace)
    requires s.Raise? && s.constructed.Some? && !s.evaluates && t in After(s, e, k)
    requires o == Raised(Known(s.constructed.value), LowerName(s.spelling))
    ensures t != [] && t[1..] in k(o)
  {
    OneRef(s.id);
    var r: Run, v: Trace :| IsRun(s, e, r) && v in k(r.out) && t == Events(r) + v;
    assert t[1..] == v;
  }

  /** What deals with an exception is a `try..except` of the routine, or its end. */
  lemma TakerProper(root: seq<Stmt>, at: Point, s: Stmt, o: Outcome)
    requires Sits(root, at, s) && o.Raised?
    ensures Taker(at, o).RoutineEnd? || (Taker(at, o).Watched? && Taker(at, o).s.TryExcept?)
  {
    hide IsBody;
    var front :| SitsSeq(root, at, front + [s]);
    TakerProperSeq(root, at, front + [s], o);
  }

  lemma {:induction false} TakerProperSeq(root: seq<Stmt>, at: Point, ss: seq<Stmt>, o: Outcome)
    requires SitsSeq(root, at, ss) && o.Raised?
    ensures Taker(at, o).RoutineEnd? || (Taker(at, o).Watched? && Taker(at, o).s.TryExcept?)
    decreases at
  {
    hide IsBody, Sits;
    if !Takes(at, o) {
      if at.Before? {
        TakerProperSeq(root, at.rest, ss + [at.next], o);
      } else {
        var front := SitsBehind(root, at, ss);
        TakerProperSeq(root, at.rest, front, o);
      }
    }
  }

  /** The statement around a part stands at the point around it. */
  lemma SitsBehind(root: seq<Stmt>, at: Point, ss: seq<Stmt>) returns (around: seq<Stmt>)
    requires SitsSeq(root, at, ss) && !at.RoutineEnd? && !at.Before?
    ensures SitsSeq(root, at.rest, around)
  {
    hide IsBody;
    var front :| SitsSeq(root, at.rest, front + [at.s]);
    around := front + [at.s];
  }

  lemma TakenBy(index: TypeIndex, watch: Point, o: Outcome, u: Trace)
    requires o.Raised? && u in Onward(index, watch)(o)
    requires watch.RoutineEnd? || (watch.Watched? && watch.s.TryExcept?)
    ensures if watch.RoutineEnd? then u == [Via(ExceptionThrow)] else Receives(index, watch, o, u)
  {
    if watch.Watched? {
      hide AfterSeq, OutsSeq, MayCatch, Escapes, HandlerEnv, CatchesSurely, MissesSurely;
      var hs := watch.s.handlers;
      EnvKeepsIndex(index, watch.rest);
      DispatchExact(index, hs, o.fact);
    }
  }

  lemma {:induction false} EnvKeepsIndex(index: TypeIndex, at: Point)
    ensures EnvOf(index, at).index == index
    decreases at
  {
    if !at.RoutineEnd? {
      EnvKeepsIndex(index, at.rest);
    }
  }

  // ---- Any two blocks

  lemma StepOut(from: Note, to: Note, scopes: seq<ScopeId>)
    requires ScopeStep(from, to) && scopes != [] && scopes <= from.scopes && !(scopes <= to.scopes)
    ensures to.scopes == scopes[..|scopes| - 1] && to.kind.FinallyHandler? && to.kind.scope == scopes[|scopes| - 1]
  {
    if |scopes| == |from.scopes| {
      assert scopes == from.scopes;
    }
  }

  /** Blocks that follow each other by edges of the graph. */
  ghost predicate Chain(g: Graph, q: seq<BlockId>) {
    q != [] && (forall i :: 0 <= i < |q| ==> q[i] < |g.blocks|)
    && forall i :: 0 <= i < |q| - 1 ==> g.HasEdge(q[i], q[i + 1])
  }

  lemma ChainRest(g: Graph, q: seq<BlockId>)
    requires Chain(g, q) && |q| > 1
    ensures Chain(g, q[1..])
  {
    var rest := q[1..];
    forall i | 0 <= i < |rest| - 1 ensures g.HasEdge(rest[i], rest[i + 1]) {
      assert g.HasEdge(q[i + 1], q[i + 2]);
    }
  }

  /** The first point at which any path is outside the innermost scope of its start is a finalizer of that scope. */
  lemma {:induction false} LeavesByFinalizer(p: Program, w: World, q: seq<BlockId>, scopes: seq<ScopeId>)
    returns (i: nat)
    requires GraphOk(w) && Labelled(p, w) && Chain(w.graph, q) && scopes != []
    requires scopes <= w.notes[q[0]].scopes && !(scopes <= w.notes[q[|q| - 1]].scopes)
    ensures 0 < i < |q| && w.notes[q[i]].scopes == scopes[..|scopes| - 1]
    ensures IsFinalizer(w.graph, q[i], scopes[|scopes| - 1])
    decreases |q|
  {
    assert w.graph.HasEdge(q[0], q[1]);
    var e :| e in w.graph.edges && e.src == q[0] && e.dst == q[1];
    assert EdgeOk(w, e);
    hide EdgeOk, Feeds;
    if scopes <= w.notes[q[1]].scopes {
      ChainRest(w.graph, q);
      var j := LeavesByFinalizer(p, w, q[1..], scopes);
      i := j + 1;
    } else {
      i := 1;
      StepOut(w.notes[q[0]], w.notes[q[1]], scopes);
      assert BlockLabelled(p, w.graph.blocks[q[1]], w.notes[q[1]]);
    }
  }

  /**
    From any block that holds a reference protected by `f`, reachable or not, a path to the exit
    passes a finalizer of `f`.
    */
  lemma LeavesForExit(p: Program, w: World, q: seq<BlockId>, id: StmtId, f: ScopeId) returns (i: nat)
    requires GraphOk(w) && Labelled(p, w) && ExitKept(w) && Chain(w.graph, q) && q[|q| - 1] == EXIT
    requires id in w.graph.Stmts(q[0]) && forall home :: home in p.placements.homes && home.id == id ==>
             f in home.scopes
    ensures i < |q| && IsFinalizer(w.graph, q[i], f)
  {
    assert BlockLabelled(p, w.graph.blocks[q[0]], w.notes[q[0]]);
    var scopes := w.notes[q[0]].scopes;
    assert Home(id, scopes) in p.placements.homes;
    var j :| 0 <= j < |scopes| && scopes[j] == f;
    i := LeavesByFinalizer(p, w, q, scopes[..j + 1]);
  }
}
