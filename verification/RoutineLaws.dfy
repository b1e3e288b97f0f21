/** The boundary of a routine: the first blocks, the last edges, and what the finished graph means. */
module RoutineLaws {
  import opened ExceptionTypes
  import opened PascalSyntax
  import opened StructuredRuns
  import opened Continuations
  import opened ControlFlowGraph
  import opened PendingTransfers
  import opened ScopePlacement
  import opened BuilderWorld
  import opened BuilderLaws
  import opened BranchLaws

  const ENTRY: BlockId := 0
  const EXIT: BlockId := 1
  const BODY: BlockId := 2

  // ---- Where a routine starts

  function StartSite(): Site {
    Site([], [], [], 1, [])
  }

  ghost function RoutineProgram(index: TypeIndex, body: seq<Stmt>): Program {
    Program(index, CollectSeq(body, StartSite().Depths()))
  }

  ghost function RoutineFuture(index: TypeIndex, body: seq<Stmt>): Future {
    AfterSeq(body, StartEnv(index), AtBoundary())
  }

  function StartGraph(): Graph {
    Graph([], []).NewBlock(Entry).NewBlock(ExitBlock).NewBlock(Plain).AddEdge(Edge(ENTRY, BODY, Normally))
  }

  ghost function StartNotes(index: TypeIndex, body: seq<Stmt>): seq<Note> {
    var whole := RoutineFuture(index, body);
    [Note(whole, [], Entry), Note(iset{[]}, [], ExitBlock), Note(whole, [], Plain)]
  }

  ghost function StartWorld(index: TypeIndex, body: seq<Stmt>): World {
    World(StartGraph(), StartNotes(index, body), {ENTRY}, map[], map[], map[], 0,
          map[([], []) := Base(AtBoundary(), 0)], 0)
  }

  ghost function StartWalk(index: TypeIndex, body: seq<Stmt>): Walk {
    Walk(RoutineProgram(index, body), StartWorld(index, body), BODY, ScopesInSeq(body), {}, StartSite(), AtBoundary())
  }

  lemma StartPlaced(index: TypeIndex, body: seq<Stmt>)
    requires DistinctSeq(body)
    ensures PlacedSeq(body, StartSite().Depths(), RoutineProgram(index, body).placements)
  {
    CollectSeqPlaces(body, StartSite().Depths(), RoutineProgram(index, body).placements);
  }

  lemma StartCanWalk(index: TypeIndex, body: seq<Stmt>)
    ensures CanWalk(StartWalk(index, body), None, RoutineFuture(index, body))
    ensures EnvAt(RoutineProgram(index, body), StartSite()) == StartEnv(index)
  {
    hide AfterSeq, ScopesInSeq, CollectSeq;
    var w := StartWorld(index, body);
    var future := RoutineFuture(index, body);
    FeedsSelf(future, future);
    assert w.graph.blocks == [BasicBlock(Entry, []), BasicBlock(ExitBlock, []), BasicBlock(Plain, [])];
    assert w.graph.edges == [Edge(ENTRY, BODY, Normally)];
    assert w.graph.Content(ENTRY) == [] && w.graph.Content(BODY) == [];
    hide Refs;
    assert [] + Mark(Normally) == [];
    assert EdgeOk(w, Edge(ENTRY, BODY, Normally));
    assert GraphOk(w);
    assert StartSite().scopes[0..] == [];
    assert Follows(RoutineProgram(index, body), w, StartSite(), AtBoundary());
  }

  lemma StartEmpty(index: TypeIndex, body: seq<Stmt>)
    ensures StartWorld(index, body).graph.Content(BODY) == []
  {}

  lemma BoundaryFuture(index: TypeIndex, body: seq<Stmt>)
    ensures RoutineFuture(index, body) == AfterSeq(body, StartEnv(index), AtBoundary())
  {}

  lemma HoldingLabels(walk: Walk, w: World, ts: seq<Transfer>)
    requires Holding(walk, w, ts)
    ensures Labelled(walk.program, w)
  {}

  lemma HoldingNone(walk: Walk, w: World, ts: seq<Transfer>)
    requires Holding(walk, w, ts)
    ensures Holding(walk, w, [])
  {
    hide WorldOk, Extends;
  }

  // ---- Where a routine ends

  /** The block that a transfer goes to at the boundary: nothing is left to catch it. */
  function BoundaryTarget(t: Transfer): Option<BlockId> {
    if t.kind.ToException? || t.kind.ToExit? then Some(EXIT) else t.target
  }

  function BoundaryEdge(t: Transfer): EdgeKind {
    if t.kind.ToException? then ExceptionThrow else CompletionEdge(t)
  }

  /** Exceptions, and nothing else, are thrown out of the routine. */
  lemma BoundaryMark(t: Transfer)
    ensures Mark(BoundaryEdge(t)) == LeaveMark(TransferOutcome(t))
    ensures BoundaryEdge(t) == ExceptionThrow <==> TransferOutcome(t).Raised?
    ensures KindFits(BoundaryEdge(t), ExitBlock)
  {}

  /** What is pending at the boundary may follow the way out. */
  lemma BoundaryFeeds(p: Trace, mark: Trace, o: Outcome, future: Future)
    requires Feeds(p, AtBoundary()(o), future) && mark == LeaveMark(o)
    ensures Feeds(p + mark, iset{[]}, future)
  {
    assert p + mark + [] == p + mark;
  }

  lemma BoundaryNormal(p: Trace, future: Future)
    requires Feeds(p, AtBoundary()(Normal), future)
    ensures Feeds(p, iset{[]}, future)
  {}

  /** No jump to a loop is pending outside all loops. */
  lemma NoJumpsLeft(w: World, t: Transfer)
    requires TransferOk(w, StartSite(), t, AtBoundary())
    ensures BoundaryTarget(t) == Some(EXIT)
  {}

  /** The exit block is as it was created. */
  ghost predicate ExitKept(w: World) {
    w.Has(EXIT) && w.graph.Content(EXIT) == [] && w.notes[EXIT] == Note(iset{[]}, [], ExitBlock)
  }

  lemma ExitStays(index: TypeIndex, body: seq<Stmt>, w: World, ts: seq<Transfer>)
    requires Holding(StartWalk(index, body), w, ts)
    ensures ExitKept(w) && w.Has(ENTRY) && w.Has(BODY) && w.graph.Content(ENTRY) == []
    ensures w.graph.Links(ENTRY, [], BODY)
    ensures w.notes[ENTRY].future == RoutineFuture(index, body) && w.notes[ENTRY].scopes == []
    ensures w.graph.blocks[ENTRY].kind == Entry && w.graph.blocks[EXIT].kind == ExitBlock
  {
    hide CacheOk, BasesOk, ReturnsOk, OriginsOk, Labelled, TransfersOk, EdgeOk, AfterSeq, ScopesInSeq, CollectSeq;
    var start := StartWorld(index, body);
    assert start.graph.blocks == [BasicBlock(Entry, []), BasicBlock(ExitBlock, []), BasicBlock(Plain, [])];
    assert Edge(ENTRY, BODY, Normally) in start.graph.edges;
    assert Edge(ENTRY, BODY, Normally) in w.graph.edges;
  }

  // ---- What the finished graph means

  /** What a run leaves behind on its way to the exit. */
  function Crossing(r: Run): Trace {
    Events(r) + LeaveMark(r.out)
  }

  /**
    Every run of the routine is a path from entry to exit: the same references, the same branches as
    the kinds of the edges tell, and the same cleanups.
    */
  ghost predicate RunsHavePaths(g: Graph, index: TypeIndex, body: seq<Stmt>) {
    forall r :: IsRunSeq(body, StartEnv(index), r) ==> Reaches(g, ENTRY, Crossing(r), EXIT)
  }

  /** Every path from entry to exit has the references, branches and cleanups of some run. */
  ghost predicate PathsHaveRuns(g: Graph, index: TypeIndex, body: seq<Stmt>) {
    forall q :: Connects(g, q, ENTRY, EXIT) ==>
        exists r :: IsRunSeq(body, StartEnv(index), r) && Crossing(r) == PathTrace(g, ENTRY, q)
  }

  /** The same, but for the numbers of the cleanup scopes. */
  ghost predicate RunsFollowed(g: Graph, index: TypeIndex, body: seq<Stmt>) {
    forall r :: IsRunSeq(body, StartEnv(index), r) ==>
        exists q :: Connects(g, q, ENTRY, EXIT) && Unnumbered(PathTrace(g, ENTRY, q)) == Unnumbered(Crossing(r))
  }

  ghost predicate PathsFollowed(g: Graph, index: TypeIndex, body: seq<Stmt>) {
    forall q :: Connects(g, q, ENTRY, EXIT) ==>
        exists r :: IsRunSeq(body, StartEnv(index), r) && Unnumbered(Crossing(r)) == Unnumbered(PathTrace(g, ENTRY, q))
  }

  /** All pending completions of the body lead to the exit block, exceptions by being thrown. */
  ghost predicate AllRouted(g: Graph, flow: Flow) {
    && (flow.normal.Some? ==> g.Links(flow.normal.value, [], EXIT))
    && forall t :: t in flow.transfers ==> Leads(g, t)
  }

  ghost predicate Leads(g: Graph, t: Transfer) {
    g.Links(t.source, LeaveMark(TransferOutcome(t)), EXIT)
  }

  lemma RoutedRuns(g: Graph, index: TypeIndex, body: seq<Stmt>, flow: Flow)
    requires SimulatesSeq(g, body, StartEnv(index), BODY, [], flow) && AllRouted(g, flow)
    requires EXIT < |g.blocks| && g.Content(EXIT) == [] && ENTRY < |g.blocks| && g.Content(ENTRY) == []
    requires g.Links(ENTRY, [], BODY)
    ensures RunsHavePaths(g, index, body)
  {
    hide IsRunSeq, Mark;
    forall r | IsRunSeq(body, StartEnv(index), r) ensures Reaches(g, ENTRY, Crossing(r), EXIT) {
      assert Lands(g, BODY, [] + Events(r), r.out, flow);
      assert [] + Events(r) == Events(r) && Crossing(r) + [] == Crossing(r);
      hide Reaches;
      if r.out.Normal? {
        ReachesNext(g, BODY, Events(r), flow.normal.value, [], EXIT);
      } else {
        var t :| t in flow.transfers && TransferOutcome(t) == r.out && Reaches(g, BODY, Events(r), t.source);
        ReachesNext(g, BODY, Events(r), t.source, LeaveMark(r.out), EXIT);
      }
      ReachesHere(g, ENTRY);
      ReachesVia(g, ENTRY, [], ENTRY, [], BODY, Crossing(r), EXIT);
      assert [] + [] + Crossing(r) == Crossing(r);
    }
  }

  /** What may follow the end of a path may, behind what the path leaves, follow its start. */
  lemma {:induction false} PathFeeds(w: World, a: BlockId, q: seq<Edge>)
    requires GraphOk(w) && IsPath(w.graph, a, q)
    ensures EndOf(a, q) < |w.notes|
    ensures Feeds(FrontTrace(w.graph, a, q), w.notes[EndOf(a, q)].future, w.notes[a].future)
    decreases |q|
  {
    hide Feeds, TextOf, Mark, ScopeStep;
    EndInside(w.graph, a, q);
    if q == [] {
      FeedsSelf(w.notes[a].future, w.notes[a].future);
    } else {
      var n := |q| - 1;
      var front, e := q[..n], q[n];
      var mid := EndOf(a, front);
      FrontPath(w.graph, a, q);
      PathFeeds(w, a, front);
      assert EdgeAt(w.graph, a, q, n) && EdgeOk(w, e);
      FrontAndLast(w.graph, a, front);
      FeedsTrans(FrontTrace(w.graph, a, front), w.graph.Content(mid) + Mark(e.kind), w.notes[e.dst].future,
                 w.notes[mid].future, w.notes[a].future);
      assert FrontTrace(w.graph, a, front) + (w.graph.Content(mid) + Mark(e.kind)) == FrontTrace(w.graph, a, q);
    }
  }

  lemma FrontPath(g: Graph, a: BlockId, q: seq<Edge>)
    requires IsPath(g, a, q) && q != []
    ensures IsPath(g, a, q[..|q| - 1]) && q[|q| - 1].src == EndOf(a, q[..|q| - 1])
  {
    var n := |q| - 1;
    assert EdgeAt(g, a, q, n);
    forall i | 0 <= i < n ensures EdgeAt(g, a, q[..n], i) {
      assert EdgeAt(g, a, q, i);
    }
  }

  /** From any block, a path to the exit leaves a trace behind that the block's future allows. */
  lemma PathsStayAllowed(w: World, a: BlockId, q: seq<Edge>)
    requires GraphOk(w) && ExitKept(w) && Connects(w.graph, q, a, EXIT)
    ensures a < |w.notes| && PathTrace(w.graph, a, q) in w.notes[a].future
  {
    PathFeeds(w, a, q);
    hide GraphOk;
    FrontAndLast(w.graph, a, q);
    assert FrontTrace(w.graph, a, q) + [] == PathTrace(w.graph, a, q);
  }

  lemma AllowedRuns(w: World, index: TypeIndex, body: seq<Stmt>)
    requires GraphOk(w) && ExitKept(w) && w.Has(ENTRY) && w.notes[ENTRY].future == RoutineFuture(index, body)
    ensures PathsHaveRuns(w.graph, index, body)
  {
    hide IsRunSeq, GraphOk, PathTrace;
    forall q | Connects(w.graph, q, ENTRY, EXIT)
      ensures exists r :: IsRunSeq(body, StartEnv(index), r) && Crossing(r) == PathTrace(w.graph, ENTRY, q) {
      PathsStayAllowed(w, ENTRY, q);
      var r: Run, u: Trace :| IsRunSeq(body, StartEnv(index), r) && u in AtBoundary()(r.out)
          && PathTrace(w.graph, ENTRY, q) == Events(r) + u;
      assert Crossing(r) == Events(r) + u;
    }
  }
}
