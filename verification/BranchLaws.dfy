/** Statements that visit one reference and then take one of several bodies. */
module BranchLaws {
  import opened ExceptionTypes
  import opened PascalSyntax
  import opened StructuredRuns
  import opened Continuations
  import opened ControlFlowGraph
  import opened PendingTransfers
  import opened ScopePlacement
  import opened BuilderWorld
  import opened BuilderLaws
  import opened SequenceLaws

  // ---- Landing through edges of one graph

  lemma ReachesVia(
    g: Graph, a: BlockId, trace: Trace, b: BlockId, mark: Trace, c: BlockId, more: Trace, d: BlockId)
    requires Reaches(g, a, trace, b) && g.Links(b, mark, c) && Reaches(g, c, more, d)
    ensures Reaches(g, a, trace + mark + more, d)
  {
    hide Mark, TextOf, StepsTrace, FrontTrace;
    var p :| Connects(g, p, a, b) && PathTrace(g, a, p) == trace;
    var q :| Connects(g, q, c, d) && PathTrace(g, c, q) == more;
    var e :| e in g.edges && e.src == b && e.dst == c && Mark(e.kind) == mark;
    EndInside(g, a, p);
    assert EdgeAt(g, b, [e], 0);
    PathJoin(g, a, p, [e]);
    PathJoin(g, a, p + [e], q);
    JoinedTrace(g, a, p + [e], q);
    FrontStep(g, a, p, e);
    hide IsPath;
    assert Connects(g, p + [e] + q, a, d);
  }

  lemma FrontStep(g: Graph, a: BlockId, p: seq<Edge>, e: Edge)
    ensures FrontTrace(g, a, p + [e]) == PathTrace(g, a, p) + Mark(e.kind)
  {
    hide Mark;
    assert (p + [e])[..|p|] == p;
  }

  lemma LandsVia(
    g: Graph, a: BlockId, trace: Trace, b: BlockId, mark: Trace, c: BlockId, more: Trace, out: Outcome, flow: Flow)
    requires Reaches(g, a, trace, b) && g.Links(b, mark, c) && Lands(g, c, more, out, flow)
    ensures Lands(g, a, trace + mark + more, out, flow)
  {
    hide Reaches;
    if out.Normal? {
      ReachesVia(g, a, trace, b, mark, c, more, flow.normal.value);
    } else {
      var t :| t in flow.transfers && TransferOutcome(t) == out && Reaches(g, c, more, t.source);
      ReachesVia(g, a, trace, b, mark, c, more, t.source);
    }
  }

  /** The inner flow's ends lead on to the outer flow's ends without visiting anything. */
  ghost predicate Passes(g: Graph, inner: Flow, outer: Flow) {
    && (forall t :: t in inner.transfers ==> t in outer.transfers)
    && (inner.normal.Some? ==>
          && outer.normal.Some?
          && outer.normal.value < |g.blocks|
          && g.Content(outer.normal.value) == []
          && g.Links(inner.normal.value, [], outer.normal.value))
  }

  lemma LandsPasses(g: Graph, a: BlockId, trace: Trace, out: Outcome, inner: Flow, outer: Flow)
    requires Lands(g, a, trace, out, inner) && Passes(g, inner, outer)
    ensures Lands(g, a, trace, out, outer)
  {
    if out.Normal? {
      ReachesNext(g, a, trace, inner.normal.value, [], outer.normal.value);
      assert trace + [] + [] == trace;
    }
  }

  lemma SimulatesSeqGrown(g: Graph, g': Graph, ss: seq<Stmt>, e: Env, start: BlockId, before: Trace, flow: Flow)
    requires Grown(g, g', {}) && SimulatesSeq(g, ss, e, start, before, flow)
    ensures SimulatesSeq(g', ss, e, start, before, flow)
  {
    hide IsRunSeq;
    forall r | IsRunSeq(ss, e, r) ensures Lands(g', start, before + Events(r), r.out, flow) {
      assert Lands(g, start, before + Events(r), r.out, flow);
      if r.out.Normal? {
        ReachesGrown(g, g', {}, start, before + Events(r), flow.normal.value);
      } else {
        var t :| t in flow.transfers && TransferOutcome(t) == r.out && Reaches(g, start, before + Events(r), t.source);
        ReachesGrown(g, g', {}, start, before + Events(r), t.source);
      }
    }
  }

  // ---- One branch

  /** A body and the way into it. */
  datatype Way = Way(kind: EdgeKind, body: seq<Stmt>)

  /** Such an edge of `head` enters the body, whose runs land in `flow`. */
  ghost predicate Branch(g: Graph, head: BlockId, way: Way, e: Env, flow: Flow) {
    exists b :: g.Links(head, Mark(way.kind), b) && SimulatesSeq(g, way.body, e, b, [], flow)
  }

  lemma BranchGrown(g: Graph, g': Graph, head: BlockId, way: Way, e: Env, flow: Flow)
    requires Grown(g, g', {}) && Branch(g, head, way, e, flow)
    ensures Branch(g', head, way, e, flow)
  {
    hide SimulatesSeq;
    var b :| g.Links(head, Mark(way.kind), b) && SimulatesSeq(g, way.body, e, b, [], flow);
    EdgeGrown(g, g', {}, head, Mark(way.kind), b);
    SimulatesSeqGrown(g, g', way.body, e, b, [], flow);
  }

  lemma BranchKept(w: World, w': World, touched: set<BlockId>, head: BlockId, way: Way, e: Env, flow: Flow)
    requires GraphOk(w) && Extends(w, w', touched) && Branch(w.graph, head, way, e, flow)
    requires forall t :: t in flow.transfers ==> t.source in w.closed
    requires flow.normal.Some? ==> flow.normal.value !in touched
    ensures Branch(w'.graph, head, way, e, flow)
  {
    hide SimulatesSeq;
    var b :| w.graph.Links(head, Mark(way.kind), b) && SimulatesSeq(w.graph, way.body, e, b, [], flow);
    EdgeGrown(w.graph, w'.graph, touched, head, Mark(way.kind), b);
    SimulatesSeqKept(w, w', touched, way.body, e, b, [], flow);
  }

  lemma VisitedKept(
    walk: Walk, w: World, w': World, touched: set<BlockId>, b: BlockId, ids: seq<StmtId>, future: Future)
    requires GraphOk(w) && Extends(w, w', touched) && GraphOk(w')
    requires Visited(walk, w, b, ids, future)
    ensures Visited(walk, w', b, ids, future)
  {
    OpenTouched(w, touched);
    ContentKept(w, w', touched, b);
    ReachesGrown(w.graph, w'.graph, touched, walk.cur, walk.start.graph.Content(walk.cur) + Refs(ids), b);
  }

  // ---- All branches of a statement

  /** What is known once the bodies so far have been walked from the head block. */
  ghost predicate Branches(
    walk: Walk, w: World, s: Stmt, e: Env, id: StmtId, head: BlockId,
    ways: seq<Way>, flows: seq<Flow>, ts: seq<Transfer>)
  {
    && Holding(walk, w, ts)
    && Visited(walk, w, head, [id], After(s, e, walk.k))
    && |ways| == |flows|
    && (forall j :: 0 <= j < |flows| ==> BranchOk(walk, w, e, head, ways[j], flows[j], ts))
    && ExceptionTransfer(head, Unknown, None) in ts
  }

  ghost predicate BranchOk(
    walk: Walk, w: World, e: Env, head: BlockId, way: Way, flow: Flow, ts: seq<Transfer>)
  {
    && Branch(w.graph, head, way, e, flow)
    && (forall t :: t in flow.transfers ==> t in ts)
    && (flow.normal.Some? ==>
          && EndOk(w, walk.site, flow.normal.value, walk.k(Normal))
          && flow.normal.value >= |walk.start.notes|)
  }

  lemma BranchesStart(walk: Walk, w: World, s: Stmt, e: Env, id: StmtId, head: BlockId)
    requires Holding(walk, w, []) && Visited(walk, w, head, [id], After(s, e, walk.k))
    requires IsRun(s, e, Leaf(Refs([id]), Implicit))
    ensures Branches(walk, w, s, e, id, head, [], [], [ExceptionTransfer(head, Unknown, None)])
    ensures Outcomes([ExceptionTransfer(head, Unknown, None)]) == {Implicit}
  {
    hide IsRun, After;
    var t := ExceptionTransfer(head, Unknown, None);
    assert TransferOutcome(t) == Implicit;
    LeafTransferOk(walk, w, head, s, e, [id], t);
    assert [t][0] in [t];
  }

  /** The body is entered behind the head of the statement, this way. */
  ghost predicate IsBranch(s: Stmt, e: Env, id: StmtId, way: Way) {
    forall r :: IsRunSeq(way.body, e, r) ==> IsRun(s, e, Node(Leaf(Refs([id]) + Mark(way.kind), Normal), r, r.out))
  }

  lemma HeadFeeds(walk: Walk, w: World, s: Stmt, e: Env, id: StmtId, head: BlockId, way: Way)
    requires Visited(walk, w, head, [id], After(s, e, walk.k)) && IsBranch(s, e, id, way)
    ensures Feeds(w.graph.Content(head) + Mark(way.kind), AfterSeq(way.body, e, walk.k), w.notes[head].future)
  {
    hide IsRun, IsRunSeq, After, AfterSeq, Visited, Feeds;
    HeadedFeeds(s, e, walk.k, id, way.kind, way.body);
    HeadNext(walk, w, head, s, e, [id], Mark(way.kind), AfterSeq(way.body, e, walk.k));
  }

  /** The note on the first block of a body. */
  ghost function BodyNote(walk: Walk, e: Env, body: seq<Stmt>): Note {
    Note(AfterSeq(body, e, walk.k), walk.site.scopes, Plain)
  }

  ghost function BodyWalk(walk: Walk, w: World, b: BlockId, body: seq<Stmt>): Walk {
    walk.(start := w, cur := b, scopes := ScopesInSeq(body))
  }

  /** A block made for a body that has not been walked yet. */
  ghost predicate Reserved(walk: Walk, w: World, b: BlockId, note: Note) {
    && w.Has(b)
    && b >= |walk.start.notes|
    && b !in w.closed
    && w.graph.Content(b) == []
    && w.notes[b] == note
  }

  lemma ReservedKept(walk: Walk, w: World, w': World, touched: set<BlockId>, b: BlockId, note: Note)
    requires GraphOk(w) && Extends(w, w', touched) && GraphOk(w')
    requires Reserved(walk, w, b, note) && b !in touched
    ensures Reserved(walk, w', b, note)
  {}

  lemma BodyCanWalk(
    walk: Walk, active: Option<nat>, future: Future, w: World, ts: seq<Transfer>, e: Env, b: BlockId,
    body: seq<Stmt>, used: set<ScopeId>)
    requires CanWalk(walk, active, future) && Holding(walk, w, ts)
    requires Reserved(walk, w, b, BodyNote(walk, e, body))
    requires NewKeys(walk.start, w, used) && used !! ScopesInSeq(body) && ScopesInSeq(body) <= walk.scopes
    ensures CanWalk(BodyWalk(walk, w, b, body), active, AfterSeq(body, e, walk.k))
  {
    hide WorldOk, AfterSeq, ScopesInSeq, Grown;
    FollowsKept(walk.program, walk.start, w, walk.site, walk.k);
    ActiveKept(walk.program, walk.start, w, walk.site, active, walk.keys);
    FreshKept(walk.start, w, walk.site, active, walk.scopes, used, ScopesInSeq(body));
    FeedsSelf(AfterSeq(body, e, walk.k), AfterSeq(body, e, walk.k));
  }

  lemma NewKeysTrans(w0: World, w1: World, w2: World, a: set<ScopeId>, b: set<ScopeId>)
    requires NewKeys(w0, w1, a) && NewKeys(w1, w2, b)
    ensures NewKeys(w0, w2, a + b)
  {}

  lemma BranchDone(
    walk: Walk, w: World, w': World, s: Stmt, e: Env, id: StmtId, head: BlockId,
    ways: seq<Way>, flows: seq<Flow>, ts: seq<Transfer>, b: BlockId, way: Way, flow: Flow)
    requires Branches(walk, w, s, e, id, head, ways, flows, ts)
    requires w.graph.Links(head, Mark(way.kind), b) && Reserved(walk, w, b, BodyNote(walk, e, way.body))
    requires forall j :: 0 <= j < |flows| ==> flows[j].normal != Some(b)
    requires ScopesInSeq(way.body) <= walk.scopes
    requires Finished(BodyWalk(walk, w, b, way.body), w', flow)
    requires SimulatesSeq(w'.graph, way.body, e, b, w.graph.Content(b), flow)
    ensures Branches(walk, w', s, e, id, head, ways + [way], flows + [flow], ts + flow.transfers)
  {
    hide CacheOk, BasesOk, ReturnsOk, OriginsOk, Labelled, After, AfterSeq, SimulatesSeq, Grown, ScopesInSeq;
    hide TransferOk, Refs, Visited, Mark;
    var inner := BodyWalk(walk, w, b, way.body);
    HoldingWalk(walk, w, ts, inner, w', flow.transfers);
    VisitedKept(walk, w, w', inner.Touched(), head, [id], After(s, e, walk.k));
    EdgeGrown(w.graph, w'.graph, inner.Touched(), head, Mark(way.kind), b);
    forall j | 0 <= j < |flows| ensures BranchOk(walk, w', e, head, ways[j], flows[j], ts + flow.transfers) {
      BranchOkKept(walk, w, w', inner.Touched(), e, head, ways[j], flows[j], ts, flow.transfers);
    }
    assert BranchOk(walk, w', e, head, way, flow, ts + flow.transfers);
  }

  lemma BranchOkKept(
    walk: Walk, w: World, w': World, touched: set<BlockId>, e: Env, head: BlockId,
    way: Way, flow: Flow, ts: seq<Transfer>, us: seq<Transfer>)
    requires GraphOk(w) && Extends(w, w', touched) && GraphOk(w') && TransfersOk(w, walk.site, ts, walk.k)
    requires BranchOk(walk, w, e, head, way, flow, ts)
    requires flow.normal.Some? ==> flow.normal.value !in touched
    ensures BranchOk(walk, w', e, head, way, flow, ts + us)
  {
    hide Branch, Grown;
    assert forall t :: t in ts ==> TransferOk(w, walk.site, t, walk.k);
    BranchKept(w, w', touched, head, way, e, flow);
    if flow.normal.Some? {
      ContentKept(w, w', touched, flow.normal.value);
    }
  }

  // ---- Joining

  /** The blocks in which the bodies end, in order. */
  function Ends(flows: seq<Flow>): seq<BlockId> {
    if flows == [] then []
    else
      var last := flows[|flows| - 1].normal;
      Ends(flows[..|flows| - 1]) + if last.Some? then [last.value] else []
  }

  lemma {:induction false} EndsContain(flows: seq<Flow>, j: nat)
    requires j < |flows| && flows[j].normal.Some?
    ensures flows[j].normal.value in Ends(flows)
    decreases |flows|
  {
    if j < |flows| - 1 {
      EndsContain(flows[..|flows| - 1], j);
    }
  }

  lemma {:induction false} EndsFrom(flows: seq<Flow>, b: BlockId)
    requires b in Ends(flows)
    ensures exists j :: 0 <= j < |flows| && flows[j].normal == Some(b)
    decreases |flows|
  {
    var n := |flows| - 1;
    if b in Ends(flows[..n]) {
      EndsFrom(flows[..n], b);
      var j :| 0 <= j < n && flows[..n][j].normal == Some(b);
      assert flows[j].normal == Some(b);
    } else {
      assert flows[n].normal == Some(b);
    }
  }

  /** Every body that ends normally has an edge to the join block, which is still empty. */
  ghost predicate Joined(g: Graph, flows: seq<Flow>, join: Option<BlockId>) {
    forall j :: 0 <= j < |flows| && flows[j].normal.Some? ==>
      && join.Some?
      && join.value < |g.blocks|
      && g.Content(join.value) == []
      && g.Links(flows[j].normal.value, [], join.value)
  }

  /** How a run of such a statement looks. */
  ghost predicate HeadedRun(s: Stmt, e: Env, id: StmtId, ways: seq<Way>, falls: Option<EdgeKind>, r: Run) {
    || r == Leaf(Refs([id]), Implicit)
    || (falls.Some? && r == Leaf(Refs([id]) + Mark(falls.value), Normal))
    || exists j :: 0 <= j < |ways| && TakesWay(e, id, ways[j], r)
  }

  ghost predicate TakesWay(e: Env, id: StmtId, way: Way, r: Run) {
    && r.Node? && r.first == Leaf(Refs([id]) + Mark(way.kind), Normal) && r.out == r.second.out
    && IsRunSeq(way.body, e, r.second)
  }

  lemma BranchesSimulate(
    walk: Walk, w: World, s: Stmt, e: Env, id: StmtId, head: BlockId,
    ways: seq<Way>, flows: seq<Flow>, ts: seq<Transfer>, join: Option<BlockId>, falls: Option<EdgeKind>)
    requires Branches(walk, w, s, e, id, head, ways, flows, ts)
    requires Joined(w.graph, flows, join)
    requires falls.Some? ==> join.Some? && join.value < |w.graph.blocks| && w.graph.Content(join.value) == []
    requires falls.Some? ==> w.graph.Links(head, Mark(falls.value), join.value)
    requires forall r :: IsRun(s, e, r) ==> HeadedRun(s, e, id, ways, falls, r)
    ensures Simulates(w.graph, s, e, walk.cur, walk.start.graph.Content(walk.cur), Flow(join, ts))
  {
    hide IsRun, IsRunSeq, Holding, After, Refs, Reaches, Branch, Mark, TakesWay, Lands, Passes, Feeds, Predicted;
    var before := walk.start.graph.Content(walk.cur);
    var flow := Flow(join, ts);
    forall r | IsRun(s, e, r) ensures Lands(w.graph, walk.cur, before + Events(r), r.out, flow) {
      assert HeadedRun(s, e, id, ways, falls, r);
      if r == Leaf(Refs([id]), Implicit) {
        RaiseLands(w.graph, walk.cur, before + Refs([id]), head, flow);
      } else if falls.Some? && r == Leaf(Refs([id]) + Mark(falls.value), Normal) {
        FallLands(w.graph, walk.cur, before, Refs([id]), head, Mark(falls.value), flow);
      } else {
        var j :| 0 <= j < |ways| && TakesWay(e, id, ways[j], r);
        assert BranchOk(walk, w, e, head, ways[j], flows[j], ts);
        assert Passes(w.graph, flows[j], flow) by {
          JoinedPasses(w.graph, flows, join, ts, j);
        }
        WayLands(w.graph, walk.cur, before, id, head, ways[j], e, flows[j], flow, r);
      }
    }
  }

  lemma JoinedPasses(g: Graph, flows: seq<Flow>, join: Option<BlockId>, ts: seq<Transfer>, j: nat)
    requires j < |flows| && Joined(g, flows, join) && forall t :: t in flows[j].transfers ==> t in ts
    ensures Passes(g, flows[j], Flow(join, ts))
  {}

  lemma RaiseLands(g: Graph, start: BlockId, trace: Trace, head: BlockId, flow: Flow)
    requires Reaches(g, start, trace, head) && ExceptionTransfer(head, Unknown, None) in flow.transfers
    ensures Lands(g, start, trace, Implicit, flow)
  {
    hide Reaches;
    assert TransferOutcome(ExceptionTransfer(head, Unknown, None)) == Implicit;
  }

  lemma FallLands(g: Graph, start: BlockId, before: Trace, ev: Trace, head: BlockId, mark: Trace, flow: Flow)
    requires Reaches(g, start, before + ev, head) && flow.normal.Some? && g.Links(head, mark, flow.normal.value)
    requires flow.normal.value < |g.blocks| && g.Content(flow.normal.value) == []
    ensures Lands(g, start, before + (ev + mark), Normal, flow)
  {
    hide Reaches;
    ReachesNext(g, start, before + ev, head, mark, flow.normal.value);
    assert before + ev + mark + [] == before + (ev + mark);
  }

  lemma WayLands(
    g: Graph, start: BlockId, before: Trace, id: StmtId, head: BlockId, way: Way, e: Env, inner: Flow,
    flow: Flow, r: Run)
    requires Reaches(g, start, before + Refs([id]), head) && Branch(g, head, way, e, inner) && Passes(g, inner, flow)
    requires TakesWay(e, id, way, r)
    ensures Lands(g, start, before + Events(r), r.out, flow)
  {
    hide Reaches, Branch, Refs, Mark, IsRunSeq, Passes, Lands;
    BranchLands(g, start, before + Refs([id]), head, way, e, inner, r.second);
    assert before + Refs([id]) + Mark(way.kind) + Events(r.second) == before + Events(r);
    LandsPasses(g, start, before + Events(r), r.out, inner, flow);
  }

  lemma BranchLands(g: Graph, start: BlockId, trace: Trace, head: BlockId, way: Way, e: Env, flow: Flow, r: Run)
    requires Reaches(g, start, trace, head) && Branch(g, head, way, e, flow) && IsRunSeq(way.body, e, r)
    ensures Lands(g, start, trace + Mark(way.kind) + Events(r), r.out, flow)
  {
    hide IsRunSeq, Reaches, Mark;
    var b :| g.Links(head, Mark(way.kind), b) && SimulatesSeq(g, way.body, e, b, [], flow);
    assert [] + Events(r) == Events(r);
    LandsVia(g, start, trace, head, Mark(way.kind), b, Events(r), r.out, flow);
  }

  lemma BranchesFinished(
    walk: Walk, w: World, s: Stmt, e: Env, id: StmtId, head: BlockId,
    ways: seq<Way>, flows: seq<Flow>, ts: seq<Transfer>, join: Option<BlockId>)
    requires Branches(walk, w, s, e, id, head, ways, flows, ts)
    requires join.Some? ==> Reserved(walk, w, join.value, Note(walk.k(Normal), walk.site.scopes, Plain))
    ensures Finished(walk, w, Flow(join, ts))
  {
    hide WorldOk, Visited, BranchOk, Extends, TransfersOk;
    if join.Some? {
      FeedsSelf(walk.k(Normal), walk.k(Normal));
    }
  }

  // ---- The branch walk as one state

  /** A branching statement whose first bodies have been walked. */
  datatype Branching = Branching(
    walk: Walk, stmt: Stmt, env: Env, id: StmtId, head: BlockId,
    ways: seq<Way>, flows: seq<Flow>, ts: seq<Transfer>)
  {
    ghost predicate Ok(w: World) {
      Branches(walk, w, stmt, env, id, head, ways, flows, ts)
    }

    function Add(way: Way, flow: Flow): Branching {
      this.(ways := ways + [way], flows := flows + [flow], ts := ts + flow.transfers)
    }
  }

  lemma BranchingKept(br: Branching, w: World, w': World, touched: set<BlockId>)
    requires br.Ok(w) && Holding(br.walk, w', br.ts) && Extends(w, w', touched)
    requires forall j :: 0 <= j < |br.flows| && br.flows[j].normal.Some? ==> br.flows[j].normal.value !in touched
    ensures br.Ok(w')
  {
    hide Holding, GraphOk, After, Extends, Visited, BranchOk, TransfersOk;
    HoldingGraph(br.walk, w, br.ts);
    HoldingGraph(br.walk, w', br.ts);
    HoldingTransfers(br.walk, w, br.ts);
    VisitedKept(br.walk, w, w', touched, br.head, [br.id], After(br.stmt, br.env, br.walk.k));
    forall j | 0 <= j < |br.flows| ensures BranchOk(br.walk, w', br.env, br.head, br.ways[j], br.flows[j], br.ts) {
      BranchOkKept(br.walk, w, w', touched, br.env, br.head, br.ways[j], br.flows[j], br.ts, []);
      assert br.ts + [] == br.ts;
    }
  }

  lemma HoldingTransfers(walk: Walk, w: World, ts: seq<Transfer>)
    requires Holding(walk, w, ts)
    ensures TransfersOk(w, walk.site, ts, walk.k)
  {
    hide WorldOk, Extends, TransferOk;
  }

  /** Adding edges from the ends of the bodies changes no block's statements. */
  lemma BranchingGrown(br: Branching, w: World, w': World, touched: set<BlockId>)
    requires br.Ok(w) && Holding(br.walk, w', br.ts) && Extends(w, w', touched) && Grown(w.graph, w'.graph, {})
    ensures br.Ok(w')
  {
    hide CacheOk, BasesOk, ReturnsOk, OriginsOk, Labelled, After, TransferOk;
    VisitedKept(br.walk, w, w', touched, br.head, [br.id], After(br.stmt, br.env, br.walk.k));
    forall j | 0 <= j < |br.flows| ensures BranchOk(br.walk, w', br.env, br.head, br.ways[j], br.flows[j], br.ts) {
      assert BranchOk(br.walk, w, br.env, br.head, br.ways[j], br.flows[j], br.ts);
      BranchGrown(w.graph, w'.graph, br.head, br.ways[j], br.env, br.flows[j]);
    }
  }

  /** The ends of the bodies are blocks that exist already. */
  lemma EndsBelow(br: Branching, w: World)
    requires br.Ok(w)
    ensures forall b :: b in Ends(br.flows) ==> b < |w.notes|
  {
    hide Holding, Visited, Branch, After, Feeds;
    forall b | b in Ends(br.flows) ensures b < |w.notes| {
      EndsFrom(br.flows, b);
      var j :| 0 <= j < |br.flows| && br.flows[j].normal == Some(b);
      assert BranchOk(br.walk, w, br.env, br.head, br.ways[j], br.flows[j], br.ts);
    }
  }

  /** A reserved block and the edge to it survive the walk of another body. */
  lemma ReservedNext(br: Branching, w: World, w': World, walked: BlockId, b: BlockId, mark: Trace, note: Note)
    requires br.Ok(w) && GraphOk(w') && Extends(w, w', {walked}) && b != walked
    requires Reserved(br.walk, w, b, note) && w.graph.Links(br.head, mark, b)
    ensures Reserved(br.walk, w', b, note) && w'.graph.Links(br.head, mark, b)
  {
    hide CacheOk, BasesOk, ReturnsOk, OriginsOk, Labelled, Visited, BranchOk, TransfersOk;
    ReservedKept(br.walk, w, w', {walked}, b, note);
    EdgeGrown(w.graph, w'.graph, {walked}, br.head, mark, b);
  }

  lemma BranchingGraphOk(br: Branching, w: World)
    requires br.Ok(w)
    ensures GraphOk(w)
  {}

  /** Nothing is left to walk: the statement as a whole. */
  lemma BranchesEnd(br: Branching, w: World, ways: seq<Way>, join: Option<BlockId>, falls: Option<EdgeKind>)
    requires br.Ok(w) && br.ways == ways
    requires join.Some? ==> Reserved(br.walk, w, join.value, Note(br.walk.k(Normal), br.walk.site.scopes, Plain))
    requires Joined(w.graph, br.flows, join)
    requires falls.Some? ==> join.Some? && w.graph.Links(br.head, Mark(falls.value), join.value)
    requires forall r :: IsRun(br.stmt, br.env, r) ==> HeadedRun(br.stmt, br.env, br.id, ways, falls, r)
    ensures Finished(br.walk, w, Flow(join, br.ts))
    ensures Simulates(w.graph, br.stmt, br.env, br.walk.cur, br.walk.start.graph.Content(br.walk.cur),
                      Flow(join, br.ts))
  {
    hide Branches, IsRun, HeadedRun, Finished, Simulates, Joined;
    BranchesFinished(br.walk, w, br.stmt, br.env, br.id, br.head, br.ways, br.flows, br.ts, join);
    BranchesSimulate(br.walk, w, br.stmt, br.env, br.id, br.head, br.ways, br.flows, br.ts, join, falls);
  }

  /** Ends from which an edge to the block after the statement is allowed. */
  ghost predicate CanJoin(walk: Walk, w: World, ends: seq<BlockId>) {
    forall x :: x in ends ==>
      EndOk(w, walk.site, x, walk.k(Normal)) && (x == walk.cur || x >= |walk.start.notes|)
  }

  lemma JoinStart(walk: Walk, w: World, ts: seq<Transfer>, ends: seq<BlockId>)
    requires Holding(walk, w, ts)
    ensures GraphOk(w) && Extends(w, w, (set x | x in ends) - w.closed)
  {}

  lemma BranchEnds(br: Branching, w: World)
    requires br.Ok(w)
    ensures CanJoin(br.walk, w, Ends(br.flows)) && Holding(br.walk, w, br.ts)
  {
    hide Holding, Visited, Branch, After, Feeds;
    forall b | b in Ends(br.flows)
      ensures EndOk(w, br.walk.site, b, br.walk.k(Normal)) && b >= |br.walk.start.notes|
    {
      EndsFrom(br.flows, b);
      var j :| 0 <= j < |br.flows| && br.flows[j].normal == Some(b);
      assert BranchOk(br.walk, w, br.env, br.head, br.ways[j], br.flows[j], br.ts);
    }
  }

  lemma BranchesJoined(br: Branching, g: Graph, join: Option<BlockId>)
    requires join.Some? <== Ends(br.flows) != []
    requires join.Some? ==>
               && join.value < |g.blocks| && g.Content(join.value) == []
               && forall x :: x in Ends(br.flows) ==> g.Links(x, [], join.value)
    ensures Joined(g, br.flows, join)
  {
    forall j | 0 <= j < |br.flows| && br.flows[j].normal.Some? ensures br.flows[j].normal.value in Ends(br.flows) {
      EndsContain(br.flows, j);
    }
  }

  lemma NoNewKeys(w: World, w': World)
    requires w'.cache == w.cache
    ensures NewKeys(w, w', {})
  {}

  // ---- The branching statements

  /** The completions of the bodies, added to the exception that the head may raise. */
  lemma HeadOutcomes(head: BlockId, us: seq<Transfer>)
    ensures Outcomes([ExceptionTransfer(head, Unknown, None)] + us) == {Implicit} + Outcomes(us)
  {
    var t := ExceptionTransfer(head, Unknown, None);
    OutcomesAppend([t], us);
    assert [t][0] in [t] && TransferOutcome(t) == Implicit;
    assert Outcomes([t]) == {Implicit};
  }

  lemma IfElsePredicted(s: Stmt, e: Env, head: BlockId, f1: Flow, f2: Flow, join: Option<BlockId>)
    requires s.IfElse?
    requires Predicted(f1, CompletesSeq(s.thenBody), OutsSeq(s.thenBody, e))
    requires Predicted(f2, CompletesSeq(s.elseBody), OutsSeq(s.elseBody, e))
    requires join.Some? <==> Ends([f1, f2]) != []
    ensures Predicted(Flow(join, [ExceptionTransfer(head, Unknown, None)] + f1.transfers + f2.transfers),
                      Completes(s), Outs(s, e))
  {
    var t := ExceptionTransfer(head, Unknown, None);
    OutcomesAppend(f1.transfers, f2.transfers);
    HeadOutcomes(head, f1.transfers + f2.transfers);
    assert [t] + f1.transfers + f2.transfers == [t] + (f1.transfers + f2.transfers);
    assert [f1, f2][..1] == [f1] && [f1][..0] == [];
    assert Ends([f1]) == if f1.normal.Some? then [f1.normal.value] else [];
  }

  lemma OneBodyPredicted(head: BlockId, f: Flow, join: Option<BlockId>, completes: bool, outs: set<Outcome>)
    requires Predicted(f, completes, outs)
    ensures Outcomes([ExceptionTransfer(head, Unknown, None)] + f.transfers) == {Implicit} + outs
    ensures Ends([f]) != [] <==> completes
  {
    HeadOutcomes(head, f.transfers);
    assert [f][..0] == [];
  }

  function IfElseWays(s: Stmt): seq<Way>
    requires s.IfElse?
  {
    [Way(ConditionalTrue, s.thenBody), Way(ConditionalFalse, s.elseBody)]
  }

  lemma IfElseRuns(s: Stmt, e: Env)
    requires s.IfElse?
    ensures IsRun(s, e, Leaf(Refs([s.id]), Implicit))
    ensures IsBranch(s, e, s.id, IfElseWays(s)[0]) && IsBranch(s, e, s.id, IfElseWays(s)[1])
    ensures forall r :: IsRun(s, e, r) ==> HeadedRun(s, e, s.id, IfElseWays(s), None, r)
  {
    hide Refs, Mark;
    var ways := IfElseWays(s);
    forall r | IsRun(s, e, r) ensures HeadedRun(s, e, s.id, ways, None, r) {
      if r.Node? {
        assert TakesWay(e, s.id, ways[0], r) || TakesWay(e, s.id, ways[1], r);
      }
    }
  }

  lemma IfOnlyRuns(s: Stmt, e: Env)
    requires s.IfOnly?
    ensures IsRun(s, e, Leaf(Refs([s.id]), Implicit))
    ensures IsRun(s, e, Leaf(Refs([s.id]) + Mark(ConditionalFalse), Normal))
    ensures IsBranch(s, e, s.id, Way(ConditionalTrue, s.thenBody))
    ensures forall r :: IsRun(s, e, r) ==>
              HeadedRun(s, e, s.id, [Way(ConditionalTrue, s.thenBody)], Some(ConditionalFalse), r)
  {
    hide Refs, Mark;
    var ways := [Way(ConditionalTrue, s.thenBody)];
    forall r | IsRun(s, e, r) ensures HeadedRun(s, e, s.id, ways, Some(ConditionalFalse), r) {
      if r.Node? {
        assert TakesWay(e, s.id, ways[0], r);
      }
    }
  }

  lemma WithRuns(s: Stmt, e: Env)
    requires s.With?
    ensures IsRun(s, e, Leaf(Refs([s.id]), Implicit))
    ensures IsBranch(s, e, s.id, Way(Normally, s.body))
    ensures forall r :: IsRun(s, e, r) ==> HeadedRun(s, e, s.id, [Way(Normally, s.body)], None, r)
  {
    hide Refs, Mark;
    var ways := [Way(Normally, s.body)];
    forall r | IsRun(s, e, r) ensures HeadedRun(s, e, s.id, ways, None, r) {
      if r.Node? {
        assert TakesWay(e, s.id, ways[0], r);
      }
    }
  }

  function ArmWays(arms: seq<Arm>): seq<Way> {
    seq(|arms|, i requires 0 <= i < |arms| => Way(CaseArm, arms[i].body))
  }

  function CaseWays(s: Stmt): seq<Way>
    requires s.Case?
  {
    ArmWays(s.arms) + if s.fallback.Fallback? then [Way(CaseArm, s.fallback.body)] else []
  }

  /** A case without a fallback may fall through. */
  function CaseFalls(s: Stmt): Option<EdgeKind>
    requires s.Case?
  {
    if s.fallback.NoFallback? then Some(CaseArm) else None
  }

  lemma CaseRuns(s: Stmt, e: Env)
    requires s.Case?
    ensures IsRun(s, e, Leaf(Refs([s.id]), Implicit))
    ensures s.fallback.NoFallback? ==> IsRun(s, e, Leaf(Refs([s.id]) + Mark(CaseArm), Normal))
    ensures forall j :: 0 <= j < |CaseWays(s)| ==> IsBranch(s, e, s.id, CaseWays(s)[j])
    ensures forall r :: IsRun(s, e, r) ==> HeadedRun(s, e, s.id, CaseWays(s), CaseFalls(s), r)
  {
    hide Refs, Mark;
    var ways := CaseWays(s);
    var head := Leaf(Refs([s.id]) + Mark(CaseArm), Normal);
    forall j | 0 <= j < |ways| ensures IsBranch(s, e, s.id, ways[j]) {
      forall r | IsRunSeq(ways[j].body, e, r) ensures IsRun(s, e, Node(head, r, r.out)) {
        if j < |s.arms| {
          assert IsRunSeq(s.arms[j].body, e, r);
        }
      }
    }
    forall r | IsRun(s, e, r) ensures HeadedRun(s, e, s.id, ways, CaseFalls(s), r) {
      if r.Node? {
        if s.fallback.Fallback? && IsRunSeq(s.fallback.body, e, r.second) {
          assert TakesWay(e, s.id, ways[|s.arms|], r);
        } else {
          var i :| 0 <= i < |s.arms| && IsRunSeq(s.arms[i].body, e, r.second);
          assert TakesWay(e, s.id, ways[i], r);
        }
      }
    }
  }

  /** Falling through a head that may complete normally, this way. */
  lemma FallFeeds(walk: Walk, w: World, s: Stmt, e: Env, id: StmtId, head: BlockId, way: EdgeKind)
    requires Visited(walk, w, head, [id], After(s, e, walk.k)) && IsRun(s, e, Leaf(Refs([id]) + Mark(way), Normal))
    ensures Feeds(w.graph.Content(head) + Mark(way), walk.k(Normal), w.notes[head].future)
  {
    hide IsRun, After, Visited, Feeds, Refs, Mark;
    LeafFeeds(s, e, walk.k, Refs([id]) + Mark(way), Normal);
    HeadNext(walk, w, head, s, e, [id], Mark(way), walk.k(Normal));
  }

  lemma EndsAppend(flows: seq<Flow>, f: Flow)
    ensures Ends(flows + [f]) == Ends(flows) + if f.normal.Some? then [f.normal.value] else []
  {
    assert (flows + [f])[..|flows|] == flows;
  }

  lemma ArmWaysAppend(arms: seq<Arm>, i: nat)
    requires i < |arms|
    ensures ArmWays(arms[..i + 1]) == ArmWays(arms[..i]) + [Way(CaseArm, arms[i].body)]
  {}

  lemma OutsArmsAppend(arms: seq<Arm>, e: Env, i: nat)
    requires i < |arms|
    ensures OutsArms(arms[..i + 1], e) == OutsArms(arms[..i], e) + OutsSeq(arms[i].body, e)
  {
    var front := arms[..i + 1];
    assert front[..|front| - 1] == arms[..i] && front[|front| - 1] == arms[i];
  }

  /** What the walk of the arms has produced so far. */
  ghost predicate ArmsWalked(arms: seq<Arm>, e: Env, i: nat, ts: seq<Transfer>, ends: seq<BlockId>)
    requires i <= |arms|
  {
    && Outcomes(ts) == {Implicit} + OutsArms(arms[..i], e)
    && (ends != [] <==> exists j :: 0 <= j < i && CompletesSeq(arms[j].body))
  }

  lemma ArmsNext(arms: seq<Arm>, e: Env, i: nat, ts: seq<Transfer>, ends: seq<BlockId>, f: Flow)
    requires i < |arms| && ArmsWalked(arms, e, i, ts, ends)
    requires Predicted(f, CompletesSeq(arms[i].body), OutsSeq(arms[i].body, e))
    ensures ArmsWalked(arms, e, i + 1, ts + f.transfers, ends + if f.normal.Some? then [f.normal.value] else [])
  {
    hide OutsArms, OutsSeq, CompletesSeq;
    OutcomesAppend(ts, f.transfers);
    OutsArmsAppend(arms, e, i);
  }

  lemma CasePredicted(s: Stmt, e: Env, ts: seq<Transfer>, ends: seq<BlockId>, last: Option<Flow>, join: Option<BlockId>)
    requires s.Case? && ArmsWalked(s.arms, e, |s.arms|, ts, ends)
    requires last.Some? <==> s.fallback.Fallback?
    requires last.Some? ==> Predicted(last.value, CompletesSeq(s.fallback.body), OutsSeq(s.fallback.body, e))
    requires join.Some? <==> s.fallback.NoFallback? || ends != [] || last.value.normal.Some?
    ensures Predicted(Flow(join, if last.Some? then ts + last.value.transfers else ts), Completes(s), Outs(s, e))
  {
    hide OutsArms, OutsSeq, CompletesSeq;
    assert s.arms[..|s.arms|] == s.arms;
    if last.Some? {
      OutcomesAppend(ts, last.value.transfers);
    }
  }

  lemma WithPredicted(s: Stmt, e: Env, head: BlockId, f: Flow, join: Option<BlockId>)
    requires s.With? && Predicted(f, CompletesSeq(s.body), OutsSeq(s.body, e))
    requires join.Some? <==> Ends([f]) != []
    ensures Predicted(Flow(join, [ExceptionTransfer(head, Unknown, None)] + f.transfers), Completes(s), Outs(s, e))
  {
    OneBodyPredicted(head, f, join, CompletesSeq(s.body), OutsSeq(s.body, e));
  }

  lemma IfOnlyPredicted(s: Stmt, e: Env, head: BlockId, f: Flow, join: BlockId)
    requires s.IfOnly? && Predicted(f, CompletesSeq(s.thenBody), OutsSeq(s.thenBody, e))
    ensures Predicted(Flow(Some(join), [ExceptionTransfer(head, Unknown, None)] + f.transfers), Completes(s),
                      Outs(s, e))
  {
    OneBodyPredicted(head, f, Some(join), CompletesSeq(s.thenBody), OutsSeq(s.thenBody, e));
  }

  lemma OneEnd(f: Flow)
    ensures Ends([f]) == if f.normal.Some? then [f.normal.value] else []
  {
    assert [f] == [] + [f];
    EndsAppend([], f);
  }

  /** Bodies end in blocks that exist already, so a new block is none of them. */
  lemma NormalsBelow(br: Branching, w: World)
    requires br.Ok(w)
    ensures forall j :: 0 <= j < |br.flows| && br.flows[j].normal.Some? ==> br.flows[j].normal.value < |w.notes|
  {
    hide Branches;
    EndsBelow(br, w);
    forall j | 0 <= j < |br.flows| && br.flows[j].normal.Some? ensures br.flows[j].normal.value < |w.notes| {
      EndsContain(br.flows, j);
    }
  }

  lemma SameKeys(w0: World, w: World, w': World, used: set<ScopeId>)
    requires NewKeys(w0, w, used) && w'.cache == w.cache
    ensures NewKeys(w0, w', used)
  {}

  lemma CaseStart(s: Stmt, e: Env, head: BlockId)
    requires s.Case?
    ensures ArmsWalked(s.arms, e, 0, [ExceptionTransfer(head, Unknown, None)], [])
    ensures ArmWays(s.arms[..0]) == [] && Ends([]) == [] && ScopesInArms(s.arms[..0]) == {}
  {
    HeadOutcomes(head, []);
    assert [ExceptionTransfer(head, Unknown, None)] + [] == [ExceptionTransfer(head, Unknown, None)];
    assert Outcomes([]) == {};
  }

  lemma CaseBody(s: Stmt, i: nat)
    requires s.Case? && i < |s.arms| + (if s.fallback.Fallback? then 1 else 0)
    ensures i < |CaseWays(s)|
    ensures CaseWays(s)[i] == Way(CaseArm, if i < |s.arms| then s.arms[i].body else s.fallback.body)
  {}

  // ---- A raise whose exception object must first be computed

  /** The transfer of a successful raise, from the block that follows the evaluation. */
  lemma RaiseFinished(walk: Walk, w: World, s: Stmt, e: Env, b: BlockId, after: BlockId, t: Transfer)
    requires s.Raise? && s.evaluates && t == ExceptionTransfer(after, RaisedFact(s.constructed), s.spelling)
    requires Holding(walk, w, []) && Visited(walk, w, b, [s.id], After(s, e, walk.k))
    requires w.Has(after) && after in w.closed && w.graph.Content(after) == [] && w.graph.Links(b, [], after)
    requires w.notes[after] == Note(walk.k(TransferOutcome(t)), walk.site.scopes, Plain)
    ensures Finished(walk, w, Flow(None, [ExceptionTransfer(b, Unknown, None), t]))
    ensures Simulates(w.graph, s, e, walk.cur, walk.start.graph.Content(walk.cur),
                      Flow(None, [ExceptionTransfer(b, Unknown, None), t]))
    ensures Predicted(Flow(None, [ExceptionTransfer(b, Unknown, None), t]), Completes(s), Outs(s, e))
  {
    hide WorldOk, After, Extends, Refs, Reaches, TextOf, NewKeys, SiteKnown, Simulates, Feeds;
    var u := ExceptionTransfer(b, Unknown, None);
    var ts := [u, t];
    assert ts[0] == u && ts[1] == t && TransferOutcome(u) == Implicit;
    LeafTransferOk(walk, w, b, s, e, [s.id], u);
    FeedsSelf(walk.k(TransferOutcome(t)), walk.k(TransferOutcome(t)));
    assert TransferOk(w, walk.site, t, walk.k);
    assert Outcomes(ts) == {TransferOutcome(u), TransferOutcome(t)} by {
      assert u in ts && t in ts;
    }
    RaiseSimulates(w.graph, s, e, walk.cur, walk.start.graph.Content(walk.cur), b, after, u, t);
  }

  lemma RaiseSimulates(
    g: Graph, s: Stmt, e: Env, start: BlockId, before: Trace, b: BlockId, after: BlockId, u: Transfer, t: Transfer)
    requires s.Raise? && s.evaluates && t == ExceptionTransfer(after, RaisedFact(s.constructed), s.spelling)
    requires u == ExceptionTransfer(b, Unknown, None) && Reaches(g, start, before + Refs([s.id]), b)
    requires after < |g.blocks| && g.Content(after) == [] && g.Links(b, [], after)
    ensures Simulates(g, s, e, start, before, Flow(None, [u, t]))
  {
    hide Reaches, Refs;
    var ts := [u, t];
    assert ts[0] == u && ts[1] == t && u in ts && t in ts && TransferOutcome(u) == Implicit;
    ReachesNext(g, start, before + Refs([s.id]), b, [], after);
    assert before + Refs([s.id]) + [] + [] == before + Refs([s.id]);
    forall r | IsRun(s, e, r) ensures Lands(g, start, before + Events(r), r.out, Flow(None, ts)) {
      assert r == Leaf(Refs([s.id]), r.out) && (r.out == Implicit || r.out == TransferOutcome(t));
    }
  }
}
