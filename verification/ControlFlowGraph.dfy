/** Control-flow graphs: basic blocks, edges, paths, and the trace that a path leaves behind. */
module ControlFlowGraph {
  import opened PascalSyntax
  import opened StructuredRuns

  type BlockId = nat

  /** A finalizer block names the scope and the completion that it was made for. */
  datatype BlockKind =
    | Entry | ExitBlock | Plain | FinallyHandler(scope: ScopeId, resumes: Outcome) | ExceptHandler | BareExceptHandler

  datatype BasicBlock = BasicBlock(kind: BlockKind, stmts: seq<StmtId>)

  datatype Edge = Edge(src: BlockId, dst: BlockId, kind: EdgeKind)

  /** What entering a block means by itself. */
  function LeadOf(kind: BlockKind): Trace {
    if kind.FinallyHandler? then [Cleanup(kind.scope, kind.resumes)] else []
  }

  function TextOf(block: BasicBlock): Trace {
    LeadOf(block.kind) + Refs(block.stmts)
  }

  datatype Graph = Graph(blocks: seq<BasicBlock>, edges: seq<Edge>) {

    function Stmts(b: BlockId): seq<StmtId> {
      if b < |blocks| then blocks[b].stmts else []
    }

    function Lead(b: BlockId): Trace {
      if b < |blocks| then LeadOf(blocks[b].kind) else []
    }

    /** What a path through the block leaves behind. */
    function Content(b: BlockId): Trace {
      if b < |blocks| then TextOf(blocks[b]) else []
    }

    function NewBlock(kind: BlockKind): Graph {
      this.(blocks := blocks + [BasicBlock(kind, [])])
    }

    function AddEdge(e: Edge): Graph {
      this.(edges := edges + [e])
    }

    function AddStmts(b: BlockId, ids: seq<StmtId>): Graph
      requires b < |blocks|
    {
      this.(blocks := blocks[b := blocks[b].(stmts := blocks[b].stmts + ids)])
    }

    ghost predicate HasEdge(a: BlockId, b: BlockId) {
      exists e :: e in edges && e.src == a && e.dst == b
    }

    /** An edge from `a` to `b` that leaves this mark. */
    ghost predicate Links(a: BlockId, mark: Trace, b: BlockId) {
      exists e :: e in edges && e.src == a && e.dst == b && Mark(e.kind) == mark
    }

    ghost predicate HasExit(a: BlockId) {
      exists e :: e in edges && e.src == a
    }
  }

  lemma NoText(kind: BlockKind)
    ensures TextOf(BasicBlock(kind, [])) == LeadOf(kind)
  {}

  lemma EmptyContent(g: Graph, b: BlockId)
    requires g.Stmts(b) == []
    ensures g.Content(b) == g.Lead(b)
  {}

  lemma AddedContent(g: Graph, b: BlockId, ids: seq<StmtId>)
    requires b < |g.blocks| && g.Stmts(b) == []
    ensures var g' := g.AddStmts(b, ids);
            && g'.Stmts(b) == ids && g'.Lead(b) == g.Lead(b) && g'.Content(b) == g.Lead(b) + Refs(ids)
            && (g.Content(b) == [] ==> g'.Content(b) == Refs(ids))
  {
    assert [] + ids == ids;
    if g.Content(b) == [] {
      assert |g.Lead(b)| <= |g.Content(b)|;
    }
  }

  // ---- Paths

  /** The block that a list of edges has come to after `i` of them. */
  function BlockAt(a: BlockId, q: seq<Edge>, i: nat): BlockId
    requires i <= |q|
  {
    if i == 0 then a else q[i - 1].dst
  }

  function EndOf(a: BlockId, q: seq<Edge>): BlockId {
    BlockAt(a, q, |q|)
  }

  /** The edges follow each other from `a` on. */
  ghost predicate IsPath(g: Graph, a: BlockId, q: seq<Edge>) {
    && a < |g.blocks|
    && forall i :: 0 <= i < |q| ==> EdgeAt(g, a, q, i)
  }

  ghost predicate EdgeAt(g: Graph, a: BlockId, q: seq<Edge>, i: nat)
    requires i < |q|
  {
    q[i] in g.edges && q[i].src == BlockAt(a, q, i) && q[i].dst < |g.blocks|
  }

  /** What crossing an edge leaves behind, with the block it leads to. */
  function StepTrace(g: Graph, e: Edge): Trace {
    Mark(e.kind) + g.Content(e.dst)
  }

  function StepsTrace(g: Graph, q: seq<Edge>): Trace {
    if q == [] then [] else StepsTrace(g, q[..|q| - 1]) + StepTrace(g, q[|q| - 1])
  }

  /** What a path leaves behind, its first block included. */
  function PathTrace(g: Graph, a: BlockId, q: seq<Edge>): Trace {
    g.Content(a) + StepsTrace(g, q)
  }

  ghost predicate Connects(g: Graph, q: seq<Edge>, a: BlockId, b: BlockId) {
    IsPath(g, a, q) && EndOf(a, q) == b
  }

  /** Some path from `a` to `b` leaves exactly `trace` behind, both end blocks included. */
  ghost predicate Reaches(g: Graph, a: BlockId, trace: Trace, b: BlockId) {
    exists q :: Connects(g, q, a, b) && PathTrace(g, a, q) == trace
  }

  lemma {:induction false} StepsAppend(g: Graph, p: seq<Edge>, q: seq<Edge>)
    ensures StepsTrace(g, p + q) == StepsTrace(g, p) + StepsTrace(g, q)
    decreases |q|
  {
    hide StepTrace;
    if q == [] {
      assert p + q == p;
    } else {
      var n := |q| - 1;
      assert (p + q)[..|p + q| - 1] == p + q[..n];
      StepsAppend(g, p, q[..n]);
    }
  }

  lemma StepOne(g: Graph, e: Edge)
    ensures StepsTrace(g, [e]) == StepTrace(g, e)
  {
    hide StepTrace;
    assert [e][..0] == [];
    assert StepsTrace(g, [e][..0]) == [];
  }

  lemma PathJoin(g: Graph, a: BlockId, p: seq<Edge>, q: seq<Edge>)
    requires IsPath(g, a, p) && IsPath(g, EndOf(a, p), q)
    ensures IsPath(g, a, p + q) && EndOf(a, p + q) == EndOf(EndOf(a, p), q)
  {
    var r := p + q;
    forall i | 0 <= i < |r| ensures EdgeAt(g, a, r, i) {
      if i < |p| {
        assert EdgeAt(g, a, p, i);
      } else {
        assert EdgeAt(g, EndOf(a, p), q, i - |p|);
      }
    }
  }

  lemma ReachesHere(g: Graph, a: BlockId)
    requires a < |g.blocks|
    ensures Reaches(g, a, g.Content(a), a)
  {
    hide TextOf;
    assert Connects(g, [], a, a);
    assert PathTrace(g, a, []) == g.Content(a) + [];
  }

  lemma ReachesNext(g: Graph, a: BlockId, trace: Trace, b: BlockId, mark: Trace, c: BlockId)
    requires Reaches(g, a, trace, b) && g.Links(b, mark, c) && c < |g.blocks|
    ensures Reaches(g, a, trace + mark + g.Content(c), c)
  {
    hide TextOf, Mark, StepsTrace;
    var q :| Connects(g, q, a, b) && PathTrace(g, a, q) == trace;
    var e :| e in g.edges && e.src == b && e.dst == c && Mark(e.kind) == mark;
    EndInside(g, a, q);
    assert EdgeAt(g, b, [e], 0);
    PathJoin(g, a, q, [e]);
    hide IsPath;
    StepsAppend(g, q, [e]);
    StepOne(g, e);
    assert g.Content(a) + (StepsTrace(g, q) + (mark + g.Content(c))) == trace + mark + g.Content(c);
    assert Connects(g, q + [e], a, c);
  }

  // ---- Growth: a graph only gains blocks, edges and, in `touched` blocks, statements

  ghost predicate Grown(g: Graph, g': Graph, touched: set<BlockId>) {
    && |g.blocks| <= |g'.blocks|
    && (forall b :: 0 <= b < |g.blocks| ==> g'.blocks[b].kind == g.blocks[b].kind)
    && (forall b :: 0 <= b < |g.blocks| && b !in touched ==> g'.blocks[b] == g.blocks[b])
    && g.edges <= g'.edges
  }

  /** Blocks that can still receive a statement: empty, with no edge leaving them. */
  ghost predicate AllOpen(g: Graph, touched: set<BlockId>) {
    forall b :: b in touched ==> g.Stmts(b) == [] && !g.HasExit(b)
  }

  lemma GrownSelf(g: Graph)
    ensures Grown(g, g, {})
  {}

  lemma GrownTrans(g: Graph, g': Graph, g'': Graph)
    requires Grown(g, g', {}) && Grown(g', g'', {})
    ensures Grown(g, g'', {})
  {}

  lemma EdgeGrown(g: Graph, g': Graph, touched: set<BlockId>, a: BlockId, mark: Trace, b: BlockId)
    requires Grown(g, g', touched) && g.Links(a, mark, b)
    ensures g'.Links(a, mark, b)
  {
    var e :| e in g.edges && e.src == a && e.dst == b && Mark(e.kind) == mark;
    assert e in g'.edges;
  }

  lemma HasEdges(g: Graph, e: Edge, g': Graph)
    requires e in g.edges && g.edges <= g'.edges
    ensures g'.Links(e.src, Mark(e.kind), e.dst)
  {
    assert e in g'.edges;
  }

  lemma PathGrown(g: Graph, g': Graph, touched: set<BlockId>, a: BlockId, q: seq<Edge>)
    requires Grown(g, g', touched) && IsPath(g, a, q)
    ensures IsPath(g', a, q)
  {
    forall i | 0 <= i < |q| ensures EdgeAt(g', a, q, i) {
      assert EdgeAt(g, a, q, i);
    }
  }

  /** Every block of a path but the last has an edge leaving it. */
  lemma PathInterior(g: Graph, a: BlockId, q: seq<Edge>, touched: set<BlockId>)
    requires IsPath(g, a, q) && AllOpen(g, touched)
    ensures forall i :: 0 <= i < |q| ==> BlockAt(a, q, i) < |g.blocks| && BlockAt(a, q, i) !in touched
  {
    forall i | 0 <= i < |q| ensures BlockAt(a, q, i) < |g.blocks| && BlockAt(a, q, i) !in touched {
      assert EdgeAt(g, a, q, i);
      if i > 0 {
        assert EdgeAt(g, a, q, i - 1);
      }
      assert g.HasExit(q[i].src);
    }
  }

  lemma {:induction false} StepsGrown(g: Graph, g': Graph, touched: set<BlockId>, q: seq<Edge>)
    requires Grown(g, g', touched)
    requires forall i :: 0 <= i < |q| ==> q[i].dst < |g.blocks| && q[i].dst !in touched
    ensures StepsTrace(g', q) == StepsTrace(g, q)
    decreases |q|
  {
    hide TextOf, Mark;
    if q != [] {
      StepsGrown(g, g', touched, q[..|q| - 1]);
    }
  }

  /** What a path leaves behind before its last block. */
  function FrontTrace(g: Graph, a: BlockId, q: seq<Edge>): Trace {
    if q == [] then [] else PathTrace(g, a, q[..|q| - 1]) + Mark(q[|q| - 1].kind)
  }

  lemma FrontAndLast(g: Graph, a: BlockId, q: seq<Edge>)
    ensures PathTrace(g, a, q) == FrontTrace(g, a, q) + g.Content(EndOf(a, q))
  {
    hide TextOf, Mark;
    if q == [] {
      assert PathTrace(g, a, q) == g.Content(a) + [];
    } else {
      var n := |q| - 1;
      var front := PathTrace(g, a, q[..n]);
      assert PathTrace(g, a, q) == front + StepTrace(g, q[n]);
    }
  }

  /** All but the last block of a path keep their statements when the graph grows. */
  lemma FrontGrown(g: Graph, g': Graph, touched: set<BlockId>, a: BlockId, q: seq<Edge>)
    requires Grown(g, g', touched) && AllOpen(g, touched) && IsPath(g, a, q)
    ensures FrontTrace(g', a, q) == FrontTrace(g, a, q)
  {
    if q != [] {
      var front := q[..|q| - 1];
      PathInterior(g, a, q, touched);
      assert BlockAt(a, q, 0) == a;
      forall i | 0 <= i < |front| ensures front[i].dst < |g.blocks| && front[i].dst !in touched {
        assert BlockAt(a, q, i + 1) == front[i].dst;
      }
      StepsGrown(g, g', touched, front);
    }
  }

  lemma ReachesGrown(g: Graph, g': Graph, touched: set<BlockId>, a: BlockId, trace: Trace, b: BlockId)
    requires Grown(g, g', touched) && AllOpen(g, touched)
    requires Reaches(g, a, trace, b) && b !in touched
    ensures Reaches(g', a, trace, b)
  {
    hide TextOf, Mark;
    var q :| Connects(g, q, a, b) && PathTrace(g, a, q) == trace;
    PathGrown(g, g', touched, a, q);
    FrontGrown(g, g', touched, a, q);
    FrontAndLast(g, a, q);
    FrontAndLast(g', a, q);
    EndInside(g, a, q);
    assert Connects(g', q, a, b);
  }

  lemma EndInside(g: Graph, a: BlockId, q: seq<Edge>)
    requires IsPath(g, a, q)
    ensures EndOf(a, q) < |g.blocks|
  {
    if q != [] {
      assert EdgeAt(g, a, q, |q| - 1);
    }
  }

  /** A path to a point, followed by a path that the grown graph offers from that point. */
  lemma ReachesThrough(
    g: Graph, g': Graph, touched: set<BlockId>,
    a: BlockId, trace: Trace, mid: BlockId, more: Trace, b: BlockId)
    requires Grown(g, g', touched) && AllOpen(g, touched)
    requires Reaches(g, a, trace, mid)
    requires Reaches(g', mid, g.Content(mid) + more, b)
    ensures Reaches(g', a, trace + more, b)
  {
    hide Grown, AllOpen, FrontTrace, StepsTrace, TextOf;
    var p :| Connects(g, p, a, mid) && PathTrace(g, a, p) == trace;
    var q :| Connects(g', q, mid, b) && PathTrace(g', mid, q) == g.Content(mid) + more;
    PathGrown(g, g', touched, a, p);
    PathJoin(g', a, p, q);
    FrontGrown(g, g', touched, a, p);
    FrontAndLast(g, a, p);
    JoinedTrace(g', a, p, q);
    hide IsPath;
    var front := FrontTrace(g, a, p);
    assert front + (g.Content(mid) + more) == (front + g.Content(mid)) + more;
    assert Connects(g', p + q, a, b);
  }

  lemma JoinedTrace(g: Graph, a: BlockId, p: seq<Edge>, q: seq<Edge>)
    ensures PathTrace(g, a, p + q) == FrontTrace(g, a, p) + PathTrace(g, EndOf(a, p), q)
  {
    hide TextOf, Mark, FrontTrace, StepsTrace;
    StepsAppend(g, p, q);
    FrontAndLast(g, a, p);
    var x, y, z := FrontTrace(g, a, p), g.Content(EndOf(a, p)), StepsTrace(g, q);
    assert PathTrace(g, a, p + q) == PathTrace(g, a, p) + z;
    assert x + y + z == x + (y + z);
  }
}
