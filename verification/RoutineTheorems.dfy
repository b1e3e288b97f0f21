/** What follows for a finished routine and for the finalizer cache. */
module RoutineTheorems {
  import opened ExceptionTypes
  import opened PascalSyntax
  import opened StructuredRuns
  import opened Continuations
  import opened ControlFlowGraph
  import opened PendingTransfers
  import opened ScopePlacement
  import opened BuilderWorld
  import opened Executions
  import opened RoutineLaws
  import opened FinalizerPaths
  import opened PathQueries

  /**
    Every execution, with any real exception classes, follows a path of the graph to its exit: the
    path visits what the execution visits and takes, as the kinds of its edges tell, the same ways.
    */
  lemma ExecutionsHavePaths(g: Graph, index: TypeIndex, body: seq<Stmt>, world: Hierarchy, x: Execution)
    returns (q: seq<Edge>)
    requires RunsFollowed(g, index, body) && Agrees(world, index)
    requires ExecutesSeq(body, Scene(world, false, None), x)
    ensures Connects(g, q, ENTRY, EXIT) && Walked(PathTrace(g, ENTRY, q)) == Acts(x) + LeaveAct(x.end)
  {
    hide ExecutesSeq, IsRunSeq, Connects, Agrees, Walked, Unnumbered, PathTrace;
    var r := ExecutionRunSeq(body, StartEnv(index), Scene(world, false, None), x);
    q :| Connects(g, q, ENTRY, EXIT) && Unnumbered(PathTrace(g, ENTRY, q)) == Unnumbered(Crossing(r));
    WalkedUnnumbered(PathTrace(g, ENTRY, q));
    WalkedUnnumbered(Crossing(r));
    CrossingActs(world, r, x);
  }

  lemma CrossingActs(world: Hierarchy, r: Run, x: Execution)
    requires Abstracts(world, r, x)
    ensures Walked(Crossing(r)) == Acts(x) + LeaveAct(x.end)
  {
    hide Walked, Acts;
    WalkedAppend(Events(r), LeaveMark(r.out));
    WalkedAll(LeaveMark(r.out));
  }

  /**
    Every edge, reachable or not: a throw leads to a handler, to a finalizer made for an exception or
    to the exit, and only a throw leads to the first two; every other completion enters its finalizer
    by an edge of its own kind.
    */
  lemma EdgeKindsFit(p: Program, w: World, e: Edge)
    requires GraphOk(w) && Labelled(p, w) && e in w.graph.edges
    ensures e.dst < |w.graph.blocks| && KindFits(e.kind, w.graph.blocks[e.dst].kind)
  {
    hide BlockLabelled, KindFits, Feeds, ScopeStep;
    assert EdgeOk(w, e);
    assert BlockLabelled(p, w.graph.blocks[e.dst], w.notes[e.dst]);
    LabelledKind(p, w.graph.blocks[e.dst], w.notes[e.dst]);
  }

  lemma LabelledKind(p: Program, block: BasicBlock, note: Note)
    requires BlockLabelled(p, block, note)
    ensures block.kind == note.kind
  {}

  // ---- Finalizers are required blocks

  /** The blocks that start a copy of the cleanup of `f`. */
  ghost function FinalizersOf(g: Graph, f: ScopeId): set<BlockId> {
    set b | 0 <= b < |g.blocks| && IsFinalizer(g, b, f)
  }

  /** From any block that holds a reference protected by `f`, the exit is reached only through a finalizer of `f`. */
  lemma FinalizersRequired(p: Program, w: World, id: StmtId, f: ScopeId, b: BlockId)
    requires GraphOk(w) && Labelled(p, w) && ExitKept(w) && w.Has(b) && id in w.graph.Stmts(b)
    requires forall home :: home in p.placements.homes && home.id == id ==> f in home.scopes
    ensures MustPass(w.graph, b, EXIT, FinalizersOf(w.graph, f))
  {
    hide Labelled, EdgeOk;
    forall q | BlockPath(w.graph, q, b, EXIT) ensures !Avoids(q, FinalizersOf(w.graph, f)) {
      PathInGraph(w, q, b);
      var i := LeavesForExit(p, w, q, id, f);
      assert q[i] in FinalizersOf(w.graph, f);
    }
  }

  lemma {:induction false} PathInGraph(w: World, q: seq<BlockId>, b: BlockId)
    requires GraphOk(w) && w.Has(b) && BlockPath(w.graph, q, b, EXIT)
    ensures Chain(w.graph, q)
  {
    forall i | 0 <= i < |q| ensures q[i] < |w.graph.blocks| {
      if i > 0 {
        assert w.graph.HasEdge(q[i - 1], q[i]);
        var e :| e in w.graph.edges && e.src == q[i - 1] && e.dst == q[i];
        assert EdgeOk(w, e);
      }
    }
  }

  // ---- The finalizer cache

  /** The continuations that a flow leaves pending. */
  function Pending(flow: Flow): set<ContinuationKey> {
    set t | t in flow.transfers :: KeyOf(t)
  }

  lemma PendingKeys(w: World, site: Site, flow: Flow, k: Kont)
    requires TransfersOk(w, site, flow.transfers, k)
    ensures Pending(flow) == set o | o in Outcomes(flow.transfers) :: KeyFor(site.loops, o)
  {
    forall key | key in Pending(flow) ensures key in (set o | o in Outcomes(flow.transfers) :: KeyFor(site.loops, o)) {
      var t :| t in flow.transfers && KeyOf(t) == key;
      assert TransferOk(w, site, t, k) && TransferOutcome(t) in Outcomes(flow.transfers);
    }
    forall o | o in Outcomes(flow.transfers) ensures KeyFor(site.loops, o) in Pending(flow) {
      var t :| t in flow.transfers && TransferOutcome(t) == o;
      assert TransferOk(w, site, t, k);
    }
  }

  /**
    A memoised body agrees with a fresh walk of the same cleanup at an equal key: both
    complete normally or neither does, and both leave the same continuations pending.
    */
  lemma HitAgreesWithWalk(p: Program, w: World, key: CacheKey, c: CachedBody, w': World, k': Kont, walked: Flow)
    requires key.continuation.Some? && CachedOk(p, w, key, c)
    requires TransfersOk(w', key.site, walked.transfers, k')
    requires Predicted(walked, CompletesSeq(p.placements.cleanups[key.scope].cleanup),
                       OutsSeq(p.placements.cleanups[key.scope].cleanup, EnvAt(p, key.site)))
    ensures walked.normal.Some? <==> c.flow.normal.Some?
    ensures Pending(walked) == Pending(c.flow)
  {
    hide CompletesSeq, OutsSeq, SimulatesSeq, AfterSeq, EndOk, TransfersOk, PendingFuture;
    PendingKeys(w, key.site, c.flow, Resume(PendingAt(p, w, key.site), OutcomeOf(key.continuation.value)));
    PendingKeys(w', key.site, walked, k');
  }

  // ---- Jumps

  predicate IsJump(o: Outcome) {
    o.Broke? || o.Continued?
  }

  /** Outside loops nothing jumps, so no jump is pending at the boundary of a routine. */
  lemma {:induction false} NoJumpsOutside(s: Stmt, e: Env)
    requires !e.inLoop
    ensures forall o :: o in Outs(s, e) ==> !IsJump(o)
    decreases s
  {
    match s
    case Block(b) => NoJumpsOutsideSeq(b, e);
    case IfElse(_, t, f) => NoJumpsOutsideSeq(t, e); NoJumpsOutsideSeq(f, e);
    case IfOnly(_, t) => NoJumpsOutsideSeq(t, e);
    case Case(_, arms, fallback) =>
      NoJumpsOutsideArms(arms, e);
      if fallback.Fallback? {
        NoJumpsOutsideSeq(fallback.body, e);
      }
    case With(_, b) => NoJumpsOutsideSeq(b, e);
    case TryFinally(_, b, c) => NoJumpsOutsideSeq(b, e); NoJumpsOutsideSeq(c, e);
    case TryExcept(b, hs) => NoJumpsOutsideSeq(b, e); NoJumpsOutsideHandlers(hs, e, FactsOf(OutsSeq(b, e)));
    case _ =>
  }

  lemma {:induction false} NoJumpsOutsideSeq(ss: seq<Stmt>, e: Env)
    requires !e.inLoop
    ensures forall o :: o in OutsSeq(ss, e) ==> !IsJump(o)
    decreases ss
  {
    if ss != [] {
      NoJumpsOutsideSeq(ss[..|ss| - 1], e);
      NoJumpsOutside(ss[|ss| - 1], e);
    }
  }

  lemma {:induction false} NoJumpsOutsideArms(arms: seq<Arm>, e: Env)
    requires !e.inLoop
    ensures forall o :: o in OutsArms(arms, e) ==> !IsJump(o)
    decreases arms
  {
    if arms != [] {
      NoJumpsOutsideArms(arms[..|arms| - 1], e);
      NoJumpsOutsideSeq(arms[|arms| - 1].body, e);
    }
  }

  lemma {:induction false} NoJumpsOutsideHandlers(hs: seq<Handler>, e: Env, incoming: set<Fact>)
    requires !e.inLoop
    ensures forall o :: o in OutsHandlers(hs, e, incoming) ==> !IsJump(o)
    decreases hs
  {
    if hs != [] {
      NoJumpsOutsideHandlers(hs[..|hs| - 1], e, incoming);
      NoJumpsOutsideSeq(hs[|hs| - 1].body, HandlerEnv(e, hs[|hs| - 1], incoming));
    }
  }
}
