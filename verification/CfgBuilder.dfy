/** Construction of the control-flow graph of one routine. */
module CfgBuilder {
  import opened ExceptionTypes
  import opened PascalSyntax
  import opened StructuredRuns
  import opened Continuations
  import opened ControlFlowGraph
  import opened PendingTransfers
  import opened ScopePlacement
  import opened BuilderWorld
  import opened BuilderLaws
  import opened SequenceLaws
  import opened BranchLaws
  import opened LoopLaws
  import opened TryExceptLaws
  import opened FinalizerGroups
  import opened TryFinallyLaws
  import opened FinallyFlowLaws
  import opened RoutineLaws
  import opened ScopeNumbering
  import opened NumberingLaws

  class BuildContext {
    const index: TypeIndex
    ghost const placements: Placements

    var graph: Graph
    var cleanupScopes: seq<ScopeId>
    var loopStack: seq<LoopFrame>
    var dispatchStack: seq<nat>
    var implicitDepth: nat
    var handledStack: seq<Fact>
    var finalizerCache: map<CacheKey, CachedBody>
    var returnIds: map<ReturnKey, nat>
    var nextReturn: nat
    var activeReturn: Option<nat>
    var suspended: Option<ContinuationKey>
    var nextDispatch: nat

    ghost var notes: seq<Note>
    ghost var closed: set<BlockId>
    ghost var origin: map<CacheKey, CacheKey>
    ghost var bases: map<(seq<LoopFrame>, seq<nat>), Base>
    ghost var activeKeys: set<CacheKey>

    ghost function Fixed(): Program {
      Program(index, placements)
    }

    ghost function Now(): World
      reads this
    {
      World(graph, notes, closed, finalizerCache, origin, returnIds, nextReturn, bases, nextDispatch)
    }

    function Here(): Site
      reads this
    {
      Site(cleanupScopes, loopStack, dispatchStack, implicitDepth, handledStack)
    }

    ghost function Context(): (Site, Option<nat>, Option<ContinuationKey>, set<CacheKey>)
      reads this
    {
      (Here(), activeReturn, suspended, activeKeys)
    }

    ghost function Around(): Env
      reads this
    {
      EnvAt(Fixed(), Here())
    }

    /** The walk that starts now at `cur`. */
    ghost function Begin(cur: BlockId, scopes: set<ScopeId>, k: Kont): Walk
      reads this
    {
      Walk(Fixed(), Now(), cur, scopes, activeKeys, Here(), k)
    }

    /** The context at the start of a routine: an entry, an exit, and the first block of the body. */
    constructor (index: TypeIndex, ghost body: seq<Stmt>)
      ensures this.index == index && placements == RoutineProgram(index, body).placements
      ensures Now() == StartWorld(index, body) && Here() == StartSite()
      ensures activeReturn == None && suspended == None && activeKeys == {}
    {
      hide TextOf;
      this.index := index;
      placements := RoutineProgram(index, body).placements;
      graph := StartGraph();
      cleanupScopes, loopStack, dispatchStack, implicitDepth, handledStack := [], [], [], 1, [];
      finalizerCache, returnIds, nextReturn, activeReturn, suspended, nextDispatch := map[], map[], 0, None, None, 0;
      notes := StartNotes(index, body);
      closed, origin, bases, activeKeys := {ENTRY}, map[], map[([], []) := Base(AtBoundary(), 0)], {};
    }

    // ---- Primitive steps

    method NewBlock(kind: BlockKind, ghost note: Note, ghost walk: Walk, ghost ts: seq<Transfer>) returns (b: BlockId)
      requires Holding(walk, Now(), ts) && CanNote(kind, note)
      modifies `graph, `notes
      ensures Now() == old(Now()).WithBlock(kind, note) && b == |old(notes)| && graph.Content(b) == LeadOf(kind)
      ensures Holding(walk, Now(), ts) && Extends(old(Now()), Now(), {})
    {
      hide TextOf;
      HoldingGraph(walk, Now(), ts);
      hide Holding, Extends, CanNote;
      BlockStep(walk, Now(), ts, kind, note);
      NoText(kind);
      b := |graph.blocks|;
      graph := graph.NewBlock(kind);
      notes := notes + [note];
    }

    method AddEdge(src: BlockId, dst: BlockId, kind: EdgeKind, ghost walk: Walk, ghost ts: seq<Transfer>)
      requires Holding(walk, Now(), ts)
      requires Now().Has(src) && Now().Has(dst) && walk.Owns(Now(), src)
      requires ScopeStep(notes[src], notes[dst]) && KindFits(kind, notes[dst].kind)
      requires Feeds(graph.Content(src) + Mark(kind), notes[dst].future, notes[src].future)
      modifies `graph, `closed
      ensures Now() == old(Now()).WithEdge(Edge(src, dst, kind))
      ensures Holding(walk, Now(), ts) && Extends(old(Now()), Now(), {src} - old(closed))
      ensures graph.Links(src, Mark(kind), dst)
    {
      hide Holding, Extends, Feeds, ScopeStep, TextOf, Mark;
      EdgeStep(walk, Now(), ts, Edge(src, dst, kind));
      graph := graph.AddEdge(Edge(src, dst, kind));
      closed := closed + {src};
    }

    /** An edge that just leads on. */
    method AddPlainEdge(src: BlockId, dst: BlockId, kind: EdgeKind, ghost walk: Walk, ghost ts: seq<Transfer>)
      requires Holding(walk, Now(), ts) && Mark(kind) == []
      requires Now().Has(src) && Now().Has(dst) && walk.Owns(Now(), src)
      requires ScopeStep(notes[src], notes[dst]) && KindFits(kind, notes[dst].kind)
      requires Feeds(graph.Content(src), notes[dst].future, notes[src].future)
      modifies `graph, `closed
      ensures Now() == old(Now()).WithEdge(Edge(src, dst, kind))
      ensures Holding(walk, Now(), ts) && Extends(old(Now()), Now(), {src} - old(closed))
      ensures graph.Links(src, [], dst)
    {
      hide Holding, Extends, Feeds, ScopeStep, TextOf, Mark;
      assert graph.Content(src) + Mark(kind) == graph.Content(src);
      AddEdge(src, dst, kind, walk, ts);
    }

    /** An edge from a closed block: only the edge is new. */
    method AddClosedEdge(src: BlockId, dst: BlockId, kind: EdgeKind, ghost walk: Walk, ghost ts: seq<Transfer>)
      requires Holding(walk, Now(), ts)
      requires Now().Has(src) && Now().Has(dst) && src in closed
      requires ScopeStep(notes[src], notes[dst]) && KindFits(kind, notes[dst].kind)
      requires Feeds(graph.Content(src) + Mark(kind), notes[dst].future, notes[src].future)
      modifies `graph, `closed
      ensures closed == old(closed) && graph.Links(src, Mark(kind), dst)
      ensures graph.blocks == old(graph.blocks) && old(graph.edges) <= graph.edges
      ensures Holding(walk, Now(), ts) && Extends(old(Now()), Now(), {}) && Grown(old(graph), graph, {})
    {
      hide Holding, Feeds, ScopeStep, TextOf, Mark;
      AddEdge(src, dst, kind, walk, ts);
      assert {src} - old(closed) == {};
    }

    method AddStmts(b: BlockId, ids: seq<StmtId>, ghost walk: Walk, ghost ts: seq<Transfer>)
      requires Holding(walk, Now(), ts)
      requires Now().Has(b) && b !in closed && walk.Owns(Now(), b) && CanHold(walk.program, notes[b], ids)
      modifies `graph, `closed
      ensures Now() == old(Now()).WithStmts(b, ids) && graph.Stmts(b) == ids && graph.Lead(b) == old(graph.Lead(b))
      ensures graph.Content(b) == graph.Lead(b) + Refs(ids)
      ensures (old(graph.Content(b)) == [] ==> graph.Content(b) == Refs(ids))
      ensures Holding(walk, Now(), ts) && Extends(old(Now()), Now(), {b})
    {
      HoldingGraph(walk, Now(), ts);
      hide Holding, Extends, CanHold, TextOf, EdgeOk;
      AddedContent(graph, b, ids);
      StmtsStep(walk, Now(), ts, b, ids);
      graph := graph.AddStmts(b, ids);
      closed := closed + {b};
    }

    /** Start a fresh block when the current one already holds a statement. */
    method PrepareStatementBlock(cur: BlockId, ghost walk: Walk, ghost future: Future) returns (b: BlockId)
      requires walk.start == Now() && walk.cur == cur
      requires Holding(walk, Now(), [])
      requires Now().Usable(cur) && EndOk(Now(), walk.site, cur, future)
      modifies `graph, `notes, `closed
      ensures Holding(walk, Now(), [])
      ensures Now().Has(b) && b !in closed && (b == cur || b >= |walk.start.notes|)
      ensures graph.Stmts(b) == [] && notes[b].scopes == walk.site.scopes
      ensures Feeds(graph.Lead(b), future, notes[b].future)
      ensures Reaches(graph, cur, walk.start.graph.Content(cur), b)
    {
      hide CacheOk, BasesOk, ReturnsOk, OriginsOk, Labelled, TransfersOk, EdgeOk, Extends, TextOf;
      if graph.Stmts(cur) == [] {
        b := cur;
        EmptyContent(graph, cur);
        ReachesHere(graph, cur);
        return;
      }
      b := NewBlock(Plain, Note(future, walk.site.scopes, Plain), walk, []);
      AddPlainEdge(cur, b, Normally, walk, []);
      FeedsSelf(future, future);
      ReachesHere(graph, cur);
      ReachesNext(graph, cur, graph.Content(cur), cur, [], b);
      assert walk.start.graph.Content(cur) + [] + [] == walk.start.graph.Content(cur);
    }

    /** Put the references of one executable statement into a block of its own. */
    method VisitStatement(cur: BlockId, ids: seq<StmtId>, ghost walk: Walk, ghost future: Future) returns (b: BlockId)
      requires walk.start == Now() && walk.cur == cur
      requires Holding(walk, Now(), [])
      requires Now().Usable(cur) && EndOk(Now(), walk.site, cur, future)
      requires forall id :: id in ids ==> Home(id, walk.site.scopes) in walk.program.placements.homes
      modifies `graph, `notes, `closed
      ensures Holding(walk, Now(), [])
      ensures Visited(walk, Now(), b, ids, future)
    {
      hide CacheOk, BasesOk, ReturnsOk, OriginsOk, Labelled, TransfersOk, EdgeOk, TextOf;
      b := PrepareStatementBlock(cur, walk, future);
      ghost var before := Now();
      AddStmts(b, ids, walk, []);
      OpenTouched(before, {b});
      EmptyContent(before.graph, b);
      ReachesHere(graph, b);
      ReachesThrough(before.graph, graph, {b}, cur, walk.start.graph.Content(cur), b, Refs(ids), b);
    }

    // ---- Statements that visit one reference

    method WalkLeaf(s: Stmt, cur: BlockId, ghost k: Kont) returns (flow: Flow)
      requires IsLeaf(s) && Placed(s, Here().Depths(), placements)
      requires CanWalk(Begin(cur, ScopesIn(s), k), activeReturn, After(s, Around(), k))
      modifies this
      ensures Context() == old(Context())
      ensures Finished(old(Begin(cur, ScopesIn(s), k)), Now(), flow)
      ensures Simulates(graph, s, old(Around()), cur, old(graph.Content(cur)), flow)
      ensures Predicted(flow, Completes(s), Outs(s, old(Around())))
    {
      hide CanWalk, Holding, Visited, Finished, Simulates, Predicted, After, Completes, Outs, EndOk, ScopesIn;
      hide EnvAt, LeafFlow, LastFact, Placed;
      hide WorldOk, Refs, TextOf, IsRun, Extends, OwnHomes;
      OwnPlaced(s, Here().Depths(), placements);
      ghost var walk := Begin(cur, ScopesIn(s), k);
      Begins(walk, activeReturn, After(s, Around(), k));
      var site := Here();
      var b := VisitStatement(cur, [s.id], walk, After(s, Around(), k));
      flow := LeafFlow(s, site, b);
      LeafFinished(walk, Now(), b, s);
    }

    // ---- Branches

    /** A block for a body that is walked later. */
    method ReserveBlock(ghost note: Note, ghost br: Branching) returns (b: BlockId)
      requires br.Ok(Now()) && note.kind.Plain?
      modifies `graph, `notes
      ensures b == |old(notes)| && Extends(old(Now()), Now(), {})
      ensures br.Ok(Now()) && Reserved(br.walk, Now(), b, note)
      ensures finalizerCache == old(finalizerCache)
    {
      hide TextOf;
      ghost var before := Now();
      b := NewBlock(Plain, note, br.walk, br.ts);
      BranchingKept(br, before, Now(), {});
    }

    /** An edge from the head of the statement to a reserved block. */
    method LinkHead(b: BlockId, kind: EdgeKind, head: BlockId, ghost note: Note, ghost br: Branching)
      requires br.Ok(Now()) && Reserved(br.walk, Now(), b, note) && head == br.head
      requires note.scopes == br.walk.site.scopes && KindFits(kind, note.kind)
      requires Feeds(graph.Content(head) + Mark(kind), note.future, notes[head].future)
      modifies `graph, `closed
      ensures br.Ok(Now()) && Reserved(br.walk, Now(), b, note)
      ensures graph.Links(head, Mark(kind), b) && Extends(old(Now()), Now(), {}) && Grown(old(graph), graph, {})
      ensures finalizerCache == old(finalizerCache)
    {
      hide WorldOk, Extends, BranchOk, TransfersOk, After, TextOf, Mark;
      ghost var before := Now();
      AddEdge(head, b, kind, br.walk, br.ts);
      assert {head} - before.closed == {};
      BranchingKept(br, before, Now(), {});
    }

    /** The edge that enters a body. */
    method LinkBody(b: BlockId, ghost body: seq<Stmt>, kind: EdgeKind, head: BlockId, ghost br: Branching)
      requires br.Ok(Now()) && Reserved(br.walk, Now(), b, BodyNote(br.walk, br.env, body)) && head == br.head
      requires IsBranch(br.stmt, br.env, br.id, Way(kind, body)) && KindFits(kind, Plain)
      modifies `graph, `closed
      ensures br.Ok(Now()) && Reserved(br.walk, Now(), b, BodyNote(br.walk, br.env, body))
      ensures graph.Links(head, Mark(kind), b) && Extends(old(Now()), Now(), {})
      ensures finalizerCache == old(finalizerCache)
    {
      hide Holding, Visited, BranchOk, After, AfterSeq, IsBranch, Reserved, Extends, TextOf, Mark;
      HeadFeeds(br.walk, Now(), br.stmt, br.env, br.id, head, Way(kind, body));
      LinkHead(b, kind, head, BodyNote(br.walk, br.env, body), br);
    }

    /** Walk one body of a branching statement from its reserved block. */
    method WalkBody(b: BlockId, body: seq<Stmt>, ghost way: EdgeKind, ghost br: Branching, ghost used: set<ScopeId>)
      returns (flow: Flow)
      requires br.walk == Walk(Fixed(), br.walk.start, br.walk.cur, br.walk.scopes, activeKeys, Here(), br.walk.k)
      requires br.env == EnvAt(br.walk.program, br.walk.site)
      requires CanWalk(br.walk, activeReturn, After(br.stmt, br.env, br.walk.k))
      requires br.Ok(Now()) && Reserved(br.walk, Now(), b, BodyNote(br.walk, br.env, body))
      requires graph.Links(br.head, Mark(way), b) && forall j :: 0 <= j < |br.flows| ==> br.flows[j].normal != Some(b)
      requires NewKeys(br.walk.start, Now(), used) && used !! ScopesInSeq(body) && ScopesInSeq(body) <= br.walk.scopes
      requires DistinctSeq(body) && PlacedSeq(body, Here().Depths(), placements)
      modifies this
      ensures Context() == old(Context())
      ensures br.Add(Way(way, body), flow).Ok(Now())
      ensures NewKeys(br.walk.start, Now(), used + ScopesInSeq(body))
      ensures Predicted(flow, CompletesSeq(body), OutsSeq(body, br.env))
      ensures flow.normal.Some? ==> flow.normal.value == b || flow.normal.value >= |old(notes)|
      ensures Extends(old(Now()), Now(), {b})
      decreases body, 1
    {
      hide CanWalk, WorldOk, SimulatesSeq, Predicted, After, AfterSeq, CompletesSeq, OutsSeq, EndOk;
      hide ScopesInSeq, EnvAt, TextOf, Mark;
      hide NewKeys, DistinctSeq, PlacedSeq, Extends, TransfersOk, Visited, BranchOk;
      ghost var before := Now();
      ghost var inner := BodyWalk(br.walk, before, b, body);
      BodyCanWalk(br.walk, activeReturn, After(br.stmt, br.env, br.walk.k), before, br.ts, br.env, b, body, used);
      assert inner == Begin(b, ScopesInSeq(body), br.walk.k);
      flow := WalkSeq(body, b, br.walk.k);
      BranchDone(br.walk, before, Now(), br.stmt, br.env, br.id, br.head, br.ways, br.flows, br.ts, b, Way(way, body),
                 flow);
      NewKeysTrans(br.walk.start, before, Now(), used, ScopesInSeq(body));
      assert inner.Touched() == {b};
    }

    /** Edges from the given ends to an empty block. */
    method LinkEnds(ends: seq<BlockId>, join: BlockId, ghost walk: Walk, ghost ts: seq<Transfer>)
      requires Holding(walk, Now(), ts) && CanJoin(walk, Now(), ends) && join !in ends
      requires Reserved(walk, Now(), join, Note(walk.k(Normal), walk.site.scopes, Plain))
      modifies `graph, `closed
      ensures Holding(walk, Now(), ts) && (forall x :: x in ends ==> graph.Links(x, [], join))
      ensures Reserved(walk, Now(), join, Note(walk.k(Normal), walk.site.scopes, Plain))
      ensures Grown(old(graph), graph, {}) && Extends(old(Now()), Now(), (set x | x in ends) - old(closed))
    {
      hide Holding, CanJoin, Reserved, Grown, Extends, GraphOk, TextOf;
      ghost var w0 := Now();
      GrownSelf(graph);
      JoinStart(walk, w0, ts, ends);
      var i := 0;
      while i < |ends|
        invariant 0 <= i <= |ends| && Holding(walk, Now(), ts) && CanJoin(walk, Now(), ends)
        invariant Reserved(walk, Now(), join, Note(walk.k(Normal), walk.site.scopes, Plain))
        invariant forall m :: 0 <= m < i ==> graph.Links(ends[m], [], join)
        invariant Grown(w0.graph, graph, {}) && Extends(w0, Now(), (set x | x in ends) - w0.closed)
      {
        LinkEnd(ends, i, join, walk, ts, w0);
        i := i + 1;
      }
      assert forall x :: x in ends ==> exists m :: 0 <= m < |ends| && ends[m] == x;
    }

    method LinkEnd(
      ends: seq<BlockId>, i: nat, join: BlockId, ghost walk: Walk, ghost ts: seq<Transfer>, ghost w0: World)
      requires i < |ends| && Holding(walk, Now(), ts) && CanJoin(walk, Now(), ends) && join !in ends && GraphOk(w0)
      requires Reserved(walk, Now(), join, Note(walk.k(Normal), walk.site.scopes, Plain))
      requires forall m :: 0 <= m < i ==> graph.Links(ends[m], [], join)
      requires Grown(w0.graph, graph, {}) && Extends(w0, Now(), (set x | x in ends) - w0.closed)
      modifies `graph, `closed
      ensures Holding(walk, Now(), ts) && CanJoin(walk, Now(), ends)
      ensures Reserved(walk, Now(), join, Note(walk.k(Normal), walk.site.scopes, Plain))
      ensures forall m :: 0 <= m <= i ==> graph.Links(ends[m], [], join)
      ensures Grown(w0.graph, graph, {}) && Extends(w0, Now(), (set x | x in ends) - w0.closed)
    {
      hide CacheOk, BasesOk, ReturnsOk, OriginsOk, Labelled, TransfersOk, EdgeOk, Feeds, TextOf, Mark;
      Unmarked();
      ghost var before := Now();
      var end := ends[i];
      assert end in ends;
      AddPlainEdge(end, join, Normally, walk, ts);
      forall m | 0 <= m < i ensures graph.Links(ends[m], [], join) {
        EdgeGrown(before.graph, graph, {}, ends[m], [], join);
      }
      GrownTrans(w0.graph, before.graph, graph);
      ExtendsTrans(w0, before, Now(), (set x | x in ends) - w0.closed, {end} - before.closed,
                   (set x | x in ends) - w0.closed);
    }

    /** A new block after the bodies, if any of them ends normally. */
    method JoinEnds(ends: seq<BlockId>, ghost walk: Walk, ghost ts: seq<Transfer>) returns (join: Option<BlockId>)
      requires Holding(walk, Now(), ts) && CanJoin(walk, Now(), ends)
      modifies `graph, `notes, `closed
      ensures Holding(walk, Now(), ts) && (join.Some? <==> ends != [])
      ensures join.Some? ==>
                && Reserved(walk, Now(), join.value, Note(walk.k(Normal), walk.site.scopes, Plain))
                && forall x :: x in ends ==> graph.Links(x, [], join.value)
      ensures Grown(old(graph), graph, {}) && Extends(old(Now()), Now(), (set x | x in ends) - old(closed))
    {
      hide CacheOk, BasesOk, ReturnsOk, OriginsOk, Labelled, TransfersOk, EdgeOk, Feeds, TextOf;
      ghost var w0 := Now();
      if ends == [] {
        join := None;
        GrownSelf(graph);
        ExtendsRefl(w0);
        return;
      }
      var b := NewBlock(Plain, Note(walk.k(Normal), walk.site.scopes, Plain), walk, ts);
      ghost var w1 := Now();
      LinkEnds(ends, b, walk, ts);
      GrownTrans(w0.graph, w1.graph, graph);
      ExtendsTrans(w0, w1, Now(), {}, (set x | x in ends) - w1.closed, (set x | x in ends) - w0.closed);
      join := Some(b);
    }

    method JoinBranches(ends: seq<BlockId>, ghost br: Branching) returns (join: Option<BlockId>)
      requires br.Ok(Now()) && ends == Ends(br.flows)
      modifies `graph, `notes, `closed
      ensures br.Ok(Now()) && Joined(graph, br.flows, join) && (join.Some? <==> ends != [])
      ensures join.Some? ==> Reserved(br.walk, Now(), join.value, Note(br.walk.k(Normal), br.walk.site.scopes, Plain))
    {
      hide Holding, CanJoin, Extends, Grown, Visited, BranchOk, After, TextOf;
      ghost var before := Now();
      BranchEnds(br, before);
      join := JoinEnds(ends, br.walk, br.ts);
      BranchingGrown(br, before, Now(), (set x | x in ends) - before.closed);
      BranchesJoined(br, graph, join);
    }

    /** Edges from the ends of all bodies to a block that the head also reaches. */
    method LinkBranches(ends: seq<BlockId>, join: BlockId, ghost way: EdgeKind, ghost br: Branching)
      requires br.Ok(Now()) && ends == Ends(br.flows) && join !in ends && graph.Links(br.head, Mark(way), join)
      requires Reserved(br.walk, Now(), join, Note(br.walk.k(Normal), br.walk.site.scopes, Plain))
      modifies `graph, `closed
      ensures br.Ok(Now()) && Joined(graph, br.flows, Some(join)) && graph.Links(br.head, Mark(way), join)
      ensures Reserved(br.walk, Now(), join, Note(br.walk.k(Normal), br.walk.site.scopes, Plain))
    {
      hide Holding, CanJoin, Extends, Grown, Visited, BranchOk, After, TextOf, Mark;
      ghost var before := Now();
      BranchEnds(br, before);
      LinkEnds(ends, join, br.walk, br.ts);
      BranchingGrown(br, before, Now(), (set x | x in ends) - before.closed);
      EdgeGrown(before.graph, graph, {}, br.head, Mark(way), join);
      BranchesJoined(br, graph, Some(join));
    }

    /** Visit the reference that heads a branching statement. */
    method BeginBranching(s: Stmt, id: StmtId, cur: BlockId, ghost k: Kont) returns (head: BlockId, ghost br: Branching)
      requires CanWalk(Begin(cur, ScopesIn(s), k), activeReturn, After(s, Around(), k))
      requires IsRun(s, Around(), Leaf(Refs([id]), Implicit)) && Home(id, Here().scopes) in placements.homes
      modifies `graph, `notes, `closed
      ensures br == Branching(old(Begin(cur, ScopesIn(s), k)), s, old(Around()), id, head, [], [],
                              [ExceptionTransfer(head, Unknown, None)])
      ensures br.Ok(Now()) && NewKeys(br.walk.start, Now(), {})
    {
      hide CanWalk, Holding, Visited, After, EndOk, EnvAt, IsRun, Branches, ScopesIn, NewKeys, TextOf;
      ghost var walk := Begin(cur, ScopesIn(s), k);
      Begins(walk, activeReturn, After(s, Around(), k));
      head := VisitStatement(cur, [id], walk, After(s, Around(), k));
      BranchesStart(walk, Now(), s, Around(), id, head);
      br := Branching(walk, s, Around(), id, head, [], [], [ExceptionTransfer(head, Unknown, None)]);
      NoNewKeys(walk.start, Now());
    }

    /** Both bodies of a conditional get their first block before either is walked. */
    method OpenBoth(head: BlockId, ghost thenBody: seq<Stmt>, ghost elseBody: seq<Stmt>, ghost br: Branching)
      returns (thenBlock: BlockId, elseBlock: BlockId)
      requires br.Ok(Now()) && head == br.head
      requires IsBranch(br.stmt, br.env, br.id, Way(ConditionalTrue, thenBody))
      requires IsBranch(br.stmt, br.env, br.id, Way(ConditionalFalse, elseBody))
      modifies `graph, `notes, `closed
      ensures br.Ok(Now()) && finalizerCache == old(finalizerCache) && thenBlock < elseBlock < |notes|
      ensures Reserved(br.walk, Now(), thenBlock, BodyNote(br.walk, br.env, thenBody))
      ensures Reserved(br.walk, Now(), elseBlock, BodyNote(br.walk, br.env, elseBody))
      ensures graph.Links(head, Mark(ConditionalTrue), thenBlock)
      ensures graph.Links(head, Mark(ConditionalFalse), elseBlock)
    {
      hide Branches, AfterSeq, IsBranch, TextOf, Mark;
      thenBlock := ReserveBlock(BodyNote(br.walk, br.env, thenBody), br);
      ghost var w1 := Now();
      elseBlock := ReserveBlock(BodyNote(br.walk, br.env, elseBody), br);
      ghost var w2 := Now();
      BranchingGraphOk(br, w1);
      BranchingGraphOk(br, w2);
      ReservedKept(br.walk, w1, w2, {}, thenBlock, BodyNote(br.walk, br.env, thenBody));
      LinkBody(thenBlock, thenBody, ConditionalTrue, head, br);
      ghost var w3 := Now();
      BranchingGraphOk(br, w3);
      ReservedKept(br.walk, w2, w3, {}, elseBlock, BodyNote(br.walk, br.env, elseBody));
      LinkBody(elseBlock, elseBody, ConditionalFalse, head, br);
      BranchingGraphOk(br, Now());
      ReservedKept(br.walk, w3, Now(), {}, thenBlock, BodyNote(br.walk, br.env, thenBody));
      EdgeGrown(w3.graph, graph, {}, head, Mark(ConditionalTrue), thenBlock);
    }

    method WalkIfElse(s: Stmt, cur: BlockId, ghost k: Kont) returns (flow: Flow)
      requires s.IfElse? && Distinct(s) && Placed(s, Here().Depths(), placements)
      requires CanWalk(Begin(cur, ScopesIn(s), k), activeReturn, After(s, Around(), k))
      modifies this
      ensures Context() == old(Context())
      ensures Finished(old(Begin(cur, ScopesIn(s), k)), Now(), flow)
      ensures Simulates(graph, s, old(Around()), cur, old(graph.Content(cur)), flow)
      ensures Predicted(flow, Completes(s), Outs(s, old(Around())))
      decreases s, 4
    {
      hide CanWalk, Finished, Simulates, After, EnvAt, IsRun, HeadedRun, IsBranch, Branches, NewKeys, TextOf;
      hide Distinct, Placed, ScopesIn, Completes, Outs, Predicted;
      IfElseRuns(s, Around());
      var head;
      ghost var br;
      OwnPlaced(s, Here().Depths(), placements);
      head, br := BeginBranching(s, s.id, cur, k);
      flow := EndIfElse(s, head, br);
    }

    method EndIfElse(s: Stmt, head: BlockId, ghost br: Branching) returns (flow: Flow)
      requires s.IfElse? && Distinct(s) && Placed(s, Here().Depths(), placements)
      requires br.walk == Walk(Fixed(), br.walk.start, br.walk.cur, ScopesIn(s), activeKeys, Here(), br.walk.k)
      requires br == Branching(br.walk, s, EnvAt(br.walk.program, br.walk.site), s.id, head, [], [],
                               [ExceptionTransfer(head, Unknown, None)])
      requires CanWalk(br.walk, activeReturn, After(s, br.env, br.walk.k)) && br.Ok(Now())
      requires NewKeys(br.walk.start, Now(), {})
      modifies this
      ensures Context() == old(Context())
      ensures Finished(br.walk, Now(), flow)
      ensures Simulates(graph, s, br.env, br.walk.cur, br.walk.start.graph.Content(br.walk.cur), flow)
      ensures Predicted(flow, Completes(s), Outs(s, br.env))
      decreases s, 3
    {
      hide CanWalk, Holding, Visited, Finished, Simulates, SimulatesSeq, After, AfterSeq, EndOk, EnvAt, IsRun;
      hide IsRunSeq, TextOf;
      hide Distinct, DistinctSeq, Placed, PlacedSeq, ScopesIn, ScopesInSeq, Completes, CompletesSeq, Outs;
      hide OutsSeq, Branches, HeadedRun, IsBranch, Predicted;
      hide Reserved, Extends, NewKeys, Joined, GraphOk, Ends, ScopeStep, Feeds, WorldOk, Refs, TransfersOk, Grown, Mark;
      IfElseRuns(s, br.env);
      IfElseParts(s, Here().Depths(), placements);
      var thenBlock, elseBlock := OpenBoth(head, s.thenBody, s.elseBody, br);
      ghost var ready := Now();
      SameKeys(br.walk.start, old(Now()), ready, {});
      var thenFlow := WalkBody(thenBlock, s.thenBody, ConditionalTrue, br, {});
      ghost var br1 := br.Add(Way(ConditionalTrue, s.thenBody), thenFlow);
      BranchingGraphOk(br1, Now());
      ReservedNext(br, ready, Now(), thenBlock, elseBlock, Mark(ConditionalFalse),
                   BodyNote(br.walk, br.env, s.elseBody));
      assert {} + ScopesInSeq(s.thenBody) == ScopesInSeq(s.thenBody);
      var elseFlow := WalkBody(elseBlock, s.elseBody, ConditionalFalse, br1, ScopesInSeq(s.thenBody));
      ghost var br2 := br1.Add(Way(ConditionalFalse, s.elseBody), elseFlow);
      assert br2.flows == [thenFlow, elseFlow] && br2.ways == IfElseWays(s);
      flow := JoinBoth(s, head, thenFlow, elseFlow, br2);
    }

    /** Both ends go on in one block. */
    method JoinBoth(s: Stmt, head: BlockId, thenFlow: Flow, elseFlow: Flow, ghost br: Branching) returns (flow: Flow)
      requires s.IfElse? && br.Ok(Now()) && br.stmt == s && br.id == s.id && br.head == head
      requires br.ways == IfElseWays(s) && br.flows == [thenFlow, elseFlow]
      requires br.ts == [ExceptionTransfer(head, Unknown, None)] + thenFlow.transfers + elseFlow.transfers
      requires Predicted(thenFlow, CompletesSeq(s.thenBody), OutsSeq(s.thenBody, br.env))
      requires Predicted(elseFlow, CompletesSeq(s.elseBody), OutsSeq(s.elseBody, br.env))
      modifies `graph, `notes, `closed
      ensures Finished(br.walk, Now(), flow)
      ensures Simulates(graph, s, br.env, br.walk.cur, br.walk.start.graph.Content(br.walk.cur), flow)
      ensures Predicted(flow, Completes(s), Outs(s, br.env))
    {
      hide Holding, Visited, Finished, Simulates, Completes, CompletesSeq, Outs, OutsSeq, Branches, HeadedRun;
      hide IsBranch, IsRun, Predicted, TextOf;
      hide Reserved, Joined, GraphOk, Ends;
      IfElseRuns(s, br.env);
      var join := JoinBranches(Ends([thenFlow, elseFlow]), br);
      flow := Flow(join, [ExceptionTransfer(head, Unknown, None)] + thenFlow.transfers + elseFlow.transfers);
      BranchesEnd(br, Now(), IfElseWays(s), join, None);
      IfElsePredicted(s, br.env, head, thenFlow, elseFlow, join);
    }

    method WalkWith(s: Stmt, cur: BlockId, ghost k: Kont) returns (flow: Flow)
      requires s.With? && Distinct(s) && Placed(s, Here().Depths(), placements)
      requires CanWalk(Begin(cur, ScopesIn(s), k), activeReturn, After(s, Around(), k))
      modifies this
      ensures Context() == old(Context())
      ensures Finished(old(Begin(cur, ScopesIn(s), k)), Now(), flow)
      ensures Simulates(graph, s, old(Around()), cur, old(graph.Content(cur)), flow)
      ensures Predicted(flow, Completes(s), Outs(s, old(Around())))
      decreases s, 4
    {
      hide CanWalk, Finished, Simulates, After, EnvAt, IsRun, HeadedRun, IsBranch, Branches, NewKeys, TextOf;
      hide Distinct, Placed, ScopesIn, Completes, Outs, Predicted;
      WithRuns(s, Around());
      var head;
      ghost var br;
      OwnPlaced(s, Here().Depths(), placements);
      head, br := BeginBranching(s, s.id, cur, k);
      flow := EndWith(s, head, br);
    }

    method EndWith(s: Stmt, head: BlockId, ghost br: Branching) returns (flow: Flow)
      requires s.With? && Distinct(s) && Placed(s, Here().Depths(), placements)
      requires br.walk == Walk(Fixed(), br.walk.start, br.walk.cur, ScopesIn(s), activeKeys, Here(), br.walk.k)
      requires br == Branching(br.walk, s, EnvAt(br.walk.program, br.walk.site), s.id, head, [], [],
                               [ExceptionTransfer(head, Unknown, None)])
      requires CanWalk(br.walk, activeReturn, After(s, br.env, br.walk.k)) && br.Ok(Now())
      requires NewKeys(br.walk.start, Now(), {})
      modifies this
      ensures Context() == old(Context())
      ensures Finished(br.walk, Now(), flow)
      ensures Simulates(graph, s, br.env, br.walk.cur, br.walk.start.graph.Content(br.walk.cur), flow)
      ensures Predicted(flow, Completes(s), Outs(s, br.env))
      decreases s, 3
    {
      hide CanWalk, Holding, Visited, Finished, Simulates, SimulatesSeq, After, AfterSeq, EndOk, EnvAt, IsRun;
      hide IsRunSeq, TextOf;
      hide Distinct, DistinctSeq, Placed, PlacedSeq, ScopesIn, ScopesInSeq, Completes, CompletesSeq, Outs;
      hide OutsSeq, Branches, HeadedRun, IsBranch, Predicted;
      hide Reserved, Extends, NewKeys, Joined, GraphOk, Ends;
      WithRuns(s, br.env);
      BodyParts(s, s.body, Here().Depths(), placements);
      var b := ReserveBlock(BodyNote(br.walk, br.env, s.body), br);
      LinkBody(b, s.body, Normally, head, br);
      SameKeys(br.walk.start, old(Now()), Now(), {});
      var body := WalkBody(b, s.body, Normally, br, {});
      ghost var br1 := br.Add(Way(Normally, s.body), body);
      assert br1.flows == [body];
      var join := JoinBranches(Ends([body]), br1);
      flow := Flow(join, [ExceptionTransfer(head, Unknown, None)] + body.transfers);
      BranchesEnd(br1, Now(), [Way(Normally, s.body)], join, None);
      WithPredicted(s, br.env, head, body, join);
    }

    /** The first block of the only body and the block after it, both linked to the head. */
    method OpenConditional(s: Stmt, head: BlockId, ghost br: Branching) returns (b: BlockId, join: BlockId)
      requires s.IfOnly? && s == br.stmt && head == br.head && br.id == s.id && br.Ok(Now())
      modifies `graph, `notes, `closed
      ensures br.Ok(Now()) && finalizerCache == old(finalizerCache) && b < join < |notes|
      ensures Reserved(br.walk, Now(), b, BodyNote(br.walk, br.env, s.thenBody))
      ensures Reserved(br.walk, Now(), join, Note(br.walk.k(Normal), br.walk.site.scopes, Plain))
      ensures graph.Links(head, Mark(ConditionalTrue), b) && graph.Links(head, Mark(ConditionalFalse), join)
    {
      hide AfterSeq, After, IsRun, IsRunSeq, IsBranch, HeadedRun, Holding, Visited, BranchOk, Refs, Extends;
      hide Grown, GraphOk;
      hide Feeds, TextOf, Mark;
      IfOnlyRuns(s, br.env);
      ghost var next := Note(br.walk.k(Normal), br.walk.site.scopes, Plain);
      b := ReserveBlock(BodyNote(br.walk, br.env, s.thenBody), br);
      ghost var w1 := Now();
      join := ReserveBlock(next, br);
      ghost var w2 := Now();
      BranchingGraphOk(br, w1);
      BranchingGraphOk(br, w2);
      ReservedKept(br.walk, w1, w2, {}, b, BodyNote(br.walk, br.env, s.thenBody));
      LinkBody(b, s.thenBody, ConditionalTrue, head, br);
      ghost var w3 := Now();
      BranchingGraphOk(br, w3);
      ReservedKept(br.walk, w2, w3, {}, join, next);
      FallFeeds(br.walk, w3, s, br.env, s.id, head, ConditionalFalse);
      LinkHead(join, ConditionalFalse, head, next, br);
      BranchingGraphOk(br, Now());
      ReservedKept(br.walk, w3, Now(), {}, b, BodyNote(br.walk, br.env, s.thenBody));
      EdgeGrown(w3.graph, graph, {}, head, Mark(ConditionalTrue), b);
    }

    method WalkIfOnly(s: Stmt, cur: BlockId, ghost k: Kont) returns (flow: Flow)
      requires s.IfOnly? && Distinct(s) && Placed(s, Here().Depths(), placements)
      requires CanWalk(Begin(cur, ScopesIn(s), k), activeReturn, After(s, Around(), k))
      modifies this
      ensures Context() == old(Context())
      ensures Finished(old(Begin(cur, ScopesIn(s), k)), Now(), flow)
      ensures Simulates(graph, s, old(Around()), cur, old(graph.Content(cur)), flow)
      ensures Predicted(flow, Completes(s), Outs(s, old(Around())))
      decreases s, 4
    {
      hide CanWalk, Finished, Simulates, After, EnvAt, IsRun, HeadedRun, IsBranch, Branches, NewKeys, TextOf;
      hide Distinct, Placed, ScopesIn, Completes, Outs, Predicted;
      IfOnlyRuns(s, Around());
      var head;
      ghost var br;
      OwnPlaced(s, Here().Depths(), placements);
      head, br := BeginBranching(s, s.id, cur, k);
      flow := EndIfOnly(s, head, br);
    }

    method EndIfOnly(s: Stmt, head: BlockId, ghost br: Branching) returns (flow: Flow)
      requires s.IfOnly? && Distinct(s) && Placed(s, Here().Depths(), placements)
      requires br.walk == Walk(Fixed(), br.walk.start, br.walk.cur, ScopesIn(s), activeKeys, Here(), br.walk.k)
      requires br == Branching(br.walk, s, EnvAt(br.walk.program, br.walk.site), s.id, head, [], [],
                               [ExceptionTransfer(head, Unknown, None)])
      requires CanWalk(br.walk, activeReturn, After(s, br.env, br.walk.k)) && br.Ok(Now())
      requires NewKeys(br.walk.start, Now(), {})
      modifies this
      ensures Context() == old(Context())
      ensures Finished(br.walk, Now(), flow)
      ensures Simulates(graph, s, br.env, br.walk.cur, br.walk.start.graph.Content(br.walk.cur), flow)
      ensures Predicted(flow, Completes(s), Outs(s, br.env))
      decreases s, 3
    {
      hide CanWalk, Holding, Visited, Finished, Simulates, SimulatesSeq, After, AfterSeq, EndOk, EnvAt, IsRun;
      hide IsRunSeq, TextOf;
      hide Distinct, DistinctSeq, Placed, PlacedSeq, ScopesIn, ScopesInSeq, Completes, CompletesSeq, Outs;
      hide OutsSeq, Branches, HeadedRun, IsBranch, Predicted;
      hide Reserved, Extends, NewKeys, Joined, GraphOk, Ends, ScopeStep, Feeds, WorldOk, Refs, TransfersOk, Grown, Mark;
      IfOnlyRuns(s, br.env);
      BodyParts(s, s.thenBody, Here().Depths(), placements);
      var b, join := OpenConditional(s, head, br);
      ghost var ready := Now();
      SameKeys(br.walk.start, old(Now()), ready, {});
      var body := WalkBody(b, s.thenBody, ConditionalTrue, br, {});
      ghost var br1 := br.Add(Way(ConditionalTrue, s.thenBody), body);
      BranchingGraphOk(br1, Now());
      ReservedNext(br, ready, Now(), b, join, Mark(ConditionalFalse),
                   Note(br.walk.k(Normal), br.walk.site.scopes, Plain));
      assert br1.flows == [body] && br1.ways == [Way(ConditionalTrue, s.thenBody)];
      OneEnd(body);
      LinkBranches(Ends([body]), join, ConditionalFalse, br1);
      flow := Flow(Some(join), [ExceptionTransfer(head, Unknown, None)] + body.transfers);
      BranchesEnd(br1, Now(), [Way(ConditionalTrue, s.thenBody)], Some(join), Some(ConditionalFalse));
      IfOnlyPredicted(s, br.env, head, body, join);
    }

    method WalkEvaluatedRaise(s: Stmt, cur: BlockId, ghost k: Kont) returns (flow: Flow)
      requires s.Raise? && s.evaluates && Placed(s, Here().Depths(), placements)
      requires CanWalk(Begin(cur, ScopesIn(s), k), activeReturn, After(s, Around(), k))
      modifies this
      ensures Context() == old(Context())
      ensures Finished(old(Begin(cur, ScopesIn(s), k)), Now(), flow)
      ensures Simulates(graph, s, old(Around()), cur, old(graph.Content(cur)), flow)
      ensures Predicted(flow, Completes(s), Outs(s, old(Around())))
    {
      hide CanWalk, Holding, Visited, Finished, Simulates, Predicted, After, Completes, Outs, EndOk, ScopesIn;
      hide EnvAt, Extends, Placed, TextOf;
      hide WorldOk, Refs, IsRun, OwnHomes;
      ghost var walk := Begin(cur, ScopesIn(s), k);
      ghost var e := Around();
      OwnPlaced(s, Here().Depths(), placements);
      Begins(walk, activeReturn, After(s, e, k));
      var b := VisitStatement(cur, [s.id], walk, After(s, e, k));
      var after := RaiseBlock(s, b, walk, e);
      flow := Flow(None, [ExceptionTransfer(b, Unknown, None),
                          ExceptionTransfer(after, RaisedFact(s.constructed), s.spelling)]);
      RaiseFinished(walk, Now(), s, e, b, after, flow.transfers[1]);
    }

    /** The block that is reached once the exception object exists. */
    method RaiseBlock(s: Stmt, b: BlockId, ghost walk: Walk, ghost e: Env) returns (after: BlockId)
      requires s.Raise? && s.evaluates
      requires Holding(walk, Now(), []) && Visited(walk, Now(), b, [s.id], After(s, e, walk.k))
      modifies `graph, `notes, `closed
      ensures Holding(walk, Now(), []) && Visited(walk, Now(), b, [s.id], After(s, e, walk.k))
      ensures Now().Has(after) && after in closed && graph.Content(after) == [] && graph.Links(b, [], after)
      ensures notes[after] == Note(walk.k(Raised(RaisedFact(s.constructed), LowerName(s.spelling))), walk.site.scopes,
                                   Plain)
    {
      hide After, CacheOk, BasesOk, ReturnsOk, OriginsOk, Labelled, Reaches, Feeds, TextOf;
      ghost var out := Raised(RaisedFact(s.constructed), LowerName(s.spelling));
      ghost var future := After(s, e, walk.k);
      ghost var w0 := Now();
      after := NewBlock(Plain, Note(walk.k(out), walk.site.scopes, Plain), walk, []);
      ghost var w1 := Now();
      VisitedKept(walk, w0, w1, {}, b, [s.id], future);
      LeafNext(walk, w1, b, s, e, [s.id], out);
      AddPlainEdge(b, after, Normally, walk, []);
      ghost var w2 := Now();
      VisitedKept(walk, w1, w2, {b} - w1.closed, b, [s.id], future);
      CloseStep(walk, w2, [], after);
      closed := closed + {after};
      VisitedKept(walk, w2, Now(), {after} - w2.closed, b, [s.id], future);
    }

    /** One arm of a `case`: its block, the edge to it and its body. */
    method WalkArm(body: seq<Stmt>, head: BlockId, ghost br: Branching, ghost used: set<ScopeId>) returns (flow: Flow)
      requires br.walk == Walk(Fixed(), br.walk.start, br.walk.cur, br.walk.scopes, activeKeys, Here(), br.walk.k)
      requires br.env == EnvAt(br.walk.program, br.walk.site) && head == br.head
      requires CanWalk(br.walk, activeReturn, After(br.stmt, br.env, br.walk.k))
      requires br.Ok(Now()) && IsBranch(br.stmt, br.env, br.id, Way(CaseArm, body))
      requires NewKeys(br.walk.start, Now(), used) && used !! ScopesInSeq(body) && ScopesInSeq(body) <= br.walk.scopes
      requires DistinctSeq(body) && PlacedSeq(body, Here().Depths(), placements)
      modifies this
      ensures Context() == old(Context())
      ensures br.Add(Way(CaseArm, body), flow).Ok(Now())
      ensures NewKeys(br.walk.start, Now(), used + ScopesInSeq(body))
      ensures Predicted(flow, CompletesSeq(body), OutsSeq(body, br.env))
      decreases body, 2
    {
      hide CanWalk, After, AfterSeq, EnvAt, IsBranch, NewKeys, ScopesInSeq, DistinctSeq, PlacedSeq, Branches;
      hide Reserved, TextOf;
      hide Predicted, CompletesSeq, OutsSeq, Extends;
      NormalsBelow(br, Now());
      var b := ReserveBlock(BodyNote(br.walk, br.env, body), br);
      LinkBody(b, body, CaseArm, head, br);
      SameKeys(br.walk.start, old(Now()), Now(), used);
      flow := WalkBody(b, body, CaseArm, br, used);
    }

    method WalkCase(s: Stmt, cur: BlockId, ghost k: Kont) returns (flow: Flow)
      requires s.Case? && Distinct(s) && Placed(s, Here().Depths(), placements)
      requires CanWalk(Begin(cur, ScopesIn(s), k), activeReturn, After(s, Around(), k))
      modifies this
      ensures Context() == old(Context())
      ensures Finished(old(Begin(cur, ScopesIn(s), k)), Now(), flow)
      ensures Simulates(graph, s, old(Around()), cur, old(graph.Content(cur)), flow)
      ensures Predicted(flow, Completes(s), Outs(s, old(Around())))
      decreases s, 4
    {
      hide CanWalk, Finished, Simulates, After, EnvAt, IsRun, HeadedRun, IsBranch, Branches, Reserved, Joined;
      hide NewKeys, TextOf;
      hide Distinct, DistinctSeq, DistinctArms, Placed, PlacedSeq, PlacedArms, ScopesIn, ScopesInSeq, ScopesInArms;
      hide Completes, CompletesSeq, Outs, OutsSeq, OutsArms, Predicted, ArmsWalked, Ends, ArmWays, CaseWays, CaseFalls;
      ghost var e := Around();
      CaseRuns(s, e);
      CaseParts(s, Here().Depths(), placements);
      var head;
      ghost var br;
      OwnPlaced(s, Here().Depths(), placements);
      head, br := BeginBranching(s, s.id, cur, k);
      var transfers, ends, i := [ExceptionTransfer(head, Unknown, None)], [], 0;
      CaseStart(s, e, head);
      while i < |s.arms|
        invariant 0 <= i <= |s.arms| && Context() == old(Context())
        invariant br == Branching(old(Begin(cur, ScopesIn(s), k)), s, e, s.id, head, br.ways, br.flows, transfers)
        invariant br.Ok(Now()) && br.ways == ArmWays(s.arms[..i]) && ends == Ends(br.flows)
        invariant ArmsWalked(s.arms, e, i, transfers, ends)
        invariant NewKeys(br.walk.start, Now(), ScopesInArms(s.arms[..i]))
      {
        var body := s.arms[i].body;
        ArmElement(s.arms, Here().Depths(), placements, i);
        CaseBody(s, i);
        var arm := WalkArm(body, head, br, ScopesInArms(s.arms[..i]));
        ArmWaysAppend(s.arms, i);
        EndsAppend(br.flows, arm);
        ArmsNext(s.arms, e, i, transfers, ends, arm);
        br := br.Add(Way(CaseArm, body), arm);
        transfers := transfers + arm.transfers;
        ends := ends + if arm.normal.Some? then [arm.normal.value] else [];
        i := i + 1;
      }
      assert s.arms[..i] == s.arms;
      flow := EndCase(s, head, transfers, ends, br);
    }

    /** The `else` part of a `case` and the block after it. */
    method EndCase(s: Stmt, head: BlockId, transfers: seq<Transfer>, ends: seq<BlockId>, ghost br: Branching)
      returns (flow: Flow)
      requires s.Case? && DistinctArms(s.arms) && PlacedArms(s.arms, Here().Depths(), placements)
      requires s.fallback.Fallback? ==>
                 && DistinctSeq(s.fallback.body) && PlacedSeq(s.fallback.body, Here().Depths(), placements)
                 && ScopesInArms(s.arms) !! ScopesInSeq(s.fallback.body)
                 && ScopesInSeq(s.fallback.body) <= br.walk.scopes
      requires br.walk == Walk(Fixed(), br.walk.start, br.walk.cur, br.walk.scopes, activeKeys, Here(), br.walk.k)
      requires br.env == EnvAt(br.walk.program, br.walk.site)
      requires br == Branching(br.walk, s, br.env, s.id, head, ArmWays(s.arms), br.flows, transfers)
      requires CanWalk(br.walk, activeReturn, After(s, br.env, br.walk.k))
      requires br.Ok(Now()) && ends == Ends(br.flows)
      requires ArmsWalked(s.arms, br.env, |s.arms|, transfers, ends)
      requires NewKeys(br.walk.start, Now(), ScopesInArms(s.arms))
      modifies this
      ensures Context() == old(Context())
      ensures Finished(br.walk, Now(), flow)
      ensures Simulates(graph, s, br.env, br.walk.cur, br.walk.start.graph.Content(br.walk.cur), flow)
      ensures Predicted(flow, Completes(s), Outs(s, br.env))
      decreases s, 3
    {
      hide CanWalk, Finished, Simulates, After, EnvAt, IsRun, HeadedRun, IsBranch, Branches, Reserved, Joined;
      hide NewKeys, TextOf;
      hide DistinctSeq, DistinctArms, PlacedSeq, PlacedArms, ScopesInSeq, ScopesInArms;
      hide Completes, CompletesSeq, Outs, OutsSeq, OutsArms, Predicted, ArmsWalked, Ends;
      CaseRuns(s, br.env);
      if s.fallback.Fallback? {
        CaseBody(s, |s.arms|);
        var last := WalkArm(s.fallback.body, head, br, ScopesInArms(s.arms));
        EndsAppend(br.flows, last);
        ghost var br1 := br.Add(Way(CaseArm, s.fallback.body), last);
        var all := ends + if last.normal.Some? then [last.normal.value] else [];
        var join := JoinBranches(all, br1);
        flow := Flow(join, transfers + last.transfers);
        BranchesEnd(br1, Now(), CaseWays(s), join, None);
        CasePredicted(s, br.env, transfers, ends, Some(last), join);
      } else {
        var join := JoinThrough(s, head, ends, br);
        flow := Flow(Some(join), transfers);
        BranchesEnd(br, Now(), CaseWays(s), Some(join), Some(CaseArm));
        CasePredicted(s, br.env, transfers, ends, None, Some(join));
      }
    }

    /** A block after the bodies that the head itself can also reach. */
    method JoinThrough(s: Stmt, head: BlockId, ends: seq<BlockId>, ghost br: Branching) returns (join: BlockId)
      requires br.Ok(Now()) && ends == Ends(br.flows) && br.stmt == s && br.head == head
      requires IsRun(s, br.env, Leaf(Refs([br.id]) + Mark(CaseArm), Normal))
      modifies `graph, `notes, `closed
      ensures br.Ok(Now()) && Joined(graph, br.flows, Some(join)) && graph.Links(head, Mark(CaseArm), join)
      ensures Reserved(br.walk, Now(), join, Note(br.walk.k(Normal), br.walk.site.scopes, Plain))
    {
      hide Holding, Visited, BranchOk, After, IsRun, Joined, TextOf, Mark;
      ghost var next := Note(br.walk.k(Normal), br.walk.site.scopes, Plain);
      EndsBelow(br, Now());
      join := ReserveBlock(next, br);
      FallFeeds(br.walk, Now(), s, br.env, br.id, head, CaseArm);
      LinkHead(join, CaseArm, head, next, br);
      LinkBranches(ends, join, CaseArm, br);
    }

    // ---- Loops

    /** Send each jump of a loop body to its block and keep the other transfers. */
    method RouteJumps(
      ts: seq<Transfer>, head: BlockId, after: BlockId, ghost frame: LoopFrame, ghost k': Kont, ghost walk: Walk)
      returns (kept: seq<Transfer>)
      requires Holding(walk, Now(), []) && TransfersOk(Now(), LoopSite(walk.site, frame), ts, k')
      requires frame.breakTarget == after && frame.continueTarget == head && Now().Has(head) && Now().Has(after)
      requires notes[head].scopes == walk.site.scopes && notes[after].scopes == walk.site.scopes
      requires notes[head].kind == notes[after].kind == Plain
      requires notes[head].future == k'(Continued) && notes[after].future == k'(Broke)
      requires forall o: Outcome :: !o.Normal? && !o.Broke? && !o.Continued? ==> k'(o) == walk.k(o)
      modifies `graph, `closed
      ensures Holding(walk, Now(), kept) && Routed(graph, ts, head, after, kept) && KeptOutcomes(ts, kept)
      ensures Grown(old(graph), graph, {}) && closed == old(closed) && Extends(old(Now()), Now(), {})
    {
      hide Grown, CacheOk, BasesOk, ReturnsOk, OriginsOk, Labelled, EdgeOk, TransferOk, Routed, KeptOutcomes, TextOf;
      GrownSelf(graph);
      ExtendsRefl(Now());
      NoJumps(graph, head, after);
      kept := [];
      var i := 0;
      assert ts[..0] == [];
      while i < |ts|
        invariant 0 <= i <= |ts| && closed == old(closed) && Now().Has(head) && Now().Has(after)
        invariant Holding(walk, Now(), kept) && TransfersOk(Now(), LoopSite(walk.site, frame), ts, k')
        invariant Routed(graph, ts[..i], head, after, kept) && KeptOutcomes(ts[..i], kept)
        invariant Grown(old(graph), graph, {}) && Extends(old(Now()), Now(), {})
      {
        kept := RouteJump(ts, i, head, after, frame, k', walk, kept, old(Now()));
        i := i + 1;
      }
      assert ts[..i] == ts;
    }

    method RouteJump(
      ts: seq<Transfer>, i: nat, head: BlockId, after: BlockId, ghost frame: LoopFrame, ghost k': Kont,
      ghost walk: Walk,
      kept: seq<Transfer>, ghost w0: World)
      returns (more: seq<Transfer>)
      requires i < |ts| && closed == w0.closed
      requires Holding(walk, Now(), kept) && TransfersOk(Now(), LoopSite(walk.site, frame), ts, k')
      requires Routed(graph, ts[..i], head, after, kept) && KeptOutcomes(ts[..i], kept)
      requires Grown(w0.graph, graph, {}) && Extends(w0, Now(), {}) && GraphOk(w0)
      requires frame.breakTarget == after && frame.continueTarget == head && Now().Has(head) && Now().Has(after)
      requires notes[head].scopes == walk.site.scopes && notes[after].scopes == walk.site.scopes
      requires notes[head].kind == notes[after].kind == Plain
      requires notes[head].future == k'(Continued) && notes[after].future == k'(Broke)
      requires forall o: Outcome :: !o.Normal? && !o.Broke? && !o.Continued? ==> k'(o) == walk.k(o)
      modifies `graph, `closed
      ensures closed == w0.closed && Now().Has(head) && Now().Has(after)
      ensures Holding(walk, Now(), more) && TransfersOk(Now(), LoopSite(walk.site, frame), ts, k')
      ensures Routed(graph, ts[..i + 1], head, after, more) && KeptOutcomes(ts[..i + 1], more)
      ensures Grown(w0.graph, graph, {}) && Extends(w0, Now(), {})
    {
      hide Holding, GraphOk, Extends, Grown, KeyFor, KeyOf, Feeds, TransfersOk, KeptOutcomes, TextOf;
      HoldingGraph(walk, Now(), kept);
      var t := ts[i];
      WaitingTransfer(Now(), LoopSite(walk.site, frame), ts, i, k');
      JumpTargets(Now(), walk.site, frame, t, k');
      KeptStep(ts[..i], t, kept);
      assert ts[..i + 1] == ts[..i] + [t];
      ghost var before := Now();
      if t.kind.ToBreak? && t.target == Some(after) {
        assert graph.Content(t.source) + Mark(CompletionEdge(t)) == graph.Content(t.source);
        AddClosedEdge(t.source, after, CompletionEdge(t), walk, kept);
        more := kept;
      } else if t.kind.ToContinue? && t.target == Some(head) {
        assert graph.Content(t.source) + Mark(CompletionEdge(t)) == graph.Content(t.source);
        AddClosedEdge(t.source, head, CompletionEdge(t), walk, kept);
        more := kept;
      } else {
        LeavesLoop(before, walk.site, frame, t, walk.k, k');
        more := kept + [t];
        HoldingOne(walk, Now(), kept, t);
        ExtendsRefl(before);
        GrownSelf(graph);
      }
      HoldingGraph(walk, Now(), more);
      TransfersKept(before, Now(), {}, LoopSite(walk.site, frame), ts, k');
      RoutedGrown(before.graph, graph, {}, ts[..i], head, after, kept, more);
      GrownTrans(w0.graph, before.graph, graph);
      ExtendsTrans(w0, before, Now(), {}, {}, {});
    }

    /** Three new blocks. */
    method ReserveThree(ghost n1: Note, ghost n2: Note, ghost n3: Note, ghost walk: Walk)
      returns (b1: BlockId, b2: BlockId, b3: BlockId)
      requires Holding(walk, Now(), []) && n1.kind.Plain? && n2.kind.Plain? && n3.kind.Plain?
      modifies `graph, `notes
      ensures Holding(walk, Now(), []) && Extends(old(Now()), Now(), {}) && b1 < b2 < b3
      ensures Reserved(walk, Now(), b1, n1) && Reserved(walk, Now(), b2, n2) && Reserved(walk, Now(), b3, n3)
    {
      hide CacheOk, BasesOk, ReturnsOk, OriginsOk, Labelled, TransfersOk, EdgeOk, TextOf;
      ghost var w0 := Now();
      b1 := NewBlock(Plain, n1, walk, []);
      ghost var w1 := Now();
      assert Reserved(walk, w1, b1, n1);
      b2 := NewBlock(Plain, n2, walk, []);
      ghost var w2 := Now();
      assert Reserved(walk, w2, b2, n2);
      hide Extends, Grown;
      b3 := NewBlock(Plain, n3, walk, []);
      assert Reserved(walk, Now(), b3, n3);
      hide GraphOk;
      ReservedKept(walk, w1, w2, {}, b1, n1);
      ReservedKept(walk, w2, Now(), {}, b1, n1);
      ReservedKept(walk, w2, Now(), {}, b2, n2);
      ExtendsTrans(w0, w1, w2, {}, {}, {});
      ExtendsTrans(w0, w2, Now(), {}, {}, {});
    }

    /** The header, body and exit blocks of a `for` or `while` loop. */
    method OpenLoop(s: Stmt, cur: BlockId, ghost walk: Walk, ghost e: Env)
      returns (head: BlockId, b: BlockId, after: BlockId)
      requires s.Loop? && walk.start == Now() && walk.cur == cur && Holding(walk, Now(), [])
      requires Home(s.id, walk.site.scopes) in walk.program.placements.homes
      requires Now().Usable(cur) && EndOk(Now(), walk.site, cur, After(s, e, walk.k))
      modifies `graph, `notes, `closed
      ensures Holding(walk, Now(), []) && LoopOpen(walk, Now(), s, head, b, after, After(s, e, walk.k))
      ensures Reserved(walk, Now(), b, Note(TurnFuture(s, e, walk.k), walk.site.scopes, Plain)) && b != after
    {
      hide CacheOk, BasesOk, ReturnsOk, OriginsOk, Labelled, TransfersOk, EdgeOk, IsRun, IsRunSeq, AfterSeq;
      hide Feeds, TextOf, TurnFuture;
      ghost var future := After(s, e, walk.k);
      ghost var inside := TurnFuture(s, e, walk.k);
      head, b, after := ReserveThree(
        Note(future, walk.site.scopes, Plain), Note(inside, walk.site.scopes, Plain),
            Note(walk.k(Normal), walk.site.scopes, Plain), walk);
      ghost var w0 := Now();
      ContentKept(walk.start, w0, {}, cur);
      hide After, Extends, Grown;
      EnterLoop(s, cur, head, walk, e);
      ghost var w1 := Now();
      ReservedKept(walk, w0, w1, {cur, head} - w0.closed, b, Note(inside, walk.site.scopes, Plain));
      ReservedKept(walk, w0, w1, {cur, head} - w0.closed, after, Note(walk.k(Normal), walk.site.scopes, Plain));
      LinkLoop(s, head, b, after, walk, e);
    }

    /** The edge into the header, and the header's own reference. */
    method EnterLoop(s: Stmt, cur: BlockId, head: BlockId, ghost walk: Walk, ghost e: Env)
      requires s.Loop? && walk.cur == cur && Holding(walk, Now(), []) && Now().Has(cur)
      requires Home(s.id, walk.site.scopes) in walk.program.placements.homes
      requires EndOk(Now(), walk.site, cur, After(s, e, walk.k)) && head != cur
      requires Reserved(walk, Now(), head, Note(After(s, e, walk.k), walk.site.scopes, Plain))
      modifies `graph, `closed
      ensures Holding(walk, Now(), []) && Extends(old(Now()), Now(), {cur, head} - old(closed))
      ensures cur in closed && head in closed && graph.Content(head) == Refs([s.id])
      ensures graph.Content(cur) == old(graph.Content(cur))
      ensures graph.Links(cur, [], head)
    {
      hide CacheOk, BasesOk, ReturnsOk, OriginsOk, Labelled, TransfersOk, EdgeOk, After, Feeds, TextOf;
      ghost var w0 := Now();
      AddPlainEdge(cur, head, Normally, walk, []);
      ghost var w1 := Now();
      AddStmts(head, [s.id], walk, []);
      ExtendsTrans(w0, w1, Now(), {cur} - w0.closed, {head}, {cur, head} - w0.closed);
      HasEdges(w1.graph, Edge(cur, head, Normally), graph);
    }

    /** The edges from the header to the body and out of the loop. */
    method LinkLoop(s: Stmt, head: BlockId, b: BlockId, after: BlockId, ghost walk: Walk, ghost e: Env)
      requires s.Loop? && Holding(walk, Now(), []) && Now().Has(walk.cur) && walk.cur in closed
      requires graph.Content(walk.cur) == walk.start.graph.Content(walk.cur)
      requires Now().Has(head) && head in closed && head >= |walk.start.notes| && graph.Content(head) == Refs([s.id])
      requires notes[head] == Note(After(s, e, walk.k), walk.site.scopes, Plain) && graph.Links(walk.cur, [], head)
      requires Reserved(walk, Now(), b, Note(TurnFuture(s, e, walk.k), walk.site.scopes, Plain))
      requires Reserved(walk, Now(), after, Note(walk.k(Normal), walk.site.scopes, Plain))
      modifies `graph, `closed
      ensures Holding(walk, Now(), []) && LoopOpen(walk, Now(), s, head, b, after, After(s, e, walk.k))
      ensures Reserved(walk, Now(), b, Note(TurnFuture(s, e, walk.k), walk.site.scopes, Plain))
    {
      hide WorldOk, TransfersOk, Extends, Grown, TextOf, Mark;
      LoopFeeds(s, e, walk.k);
      LeafFeeds(s, e, walk.k, Refs([s.id]) + Mark(LoopExit), Normal);
      hide After, AfterSeq, IsRun, IsRunSeq, Feeds;
      ghost var before := graph;
      AddClosedEdge(head, b, ConditionalTrue, walk, []);
      ghost var between := graph;
      AddClosedEdge(head, after, LoopExit, walk, []);
      GrownTrans(before, between, graph);
      EdgeGrown(before, graph, {}, walk.cur, [], head);
      EdgeGrown(between, graph, {}, head, Mark(ConditionalTrue), b);
    }

    /** Walk a loop body in the context of its loop. */
    method WalkLoopBody(
      body: seq<Stmt>, b: BlockId, head: BlockId, after: BlockId,
      ghost future: Future, ghost e': Env, ghost k': Kont, ghost walk: Walk)
      returns (flow: Flow)
      requires walk == Walk(Fixed(), walk.start, walk.cur, walk.scopes, activeKeys, Here(), walk.k)
      requires CanWalk(walk, activeReturn, future) && Holding(walk, Now(), [])
      requires finalizerCache == walk.start.cache && bases == walk.start.bases
      requires |walk.start.notes| <= head < |notes| && |walk.start.notes| <= after < |notes|
      requires Reserved(walk, Now(), b, Note(AfterSeq(body, e', k'), walk.site.scopes, Plain))
      requires e' == EnvAt(walk.program, walk.site).(inLoop := true)
      requires DistinctSeq(body) && PlacedSeq(body, Here().Depths().InLoop(), placements)
      requires ScopesInSeq(body) <= walk.scopes
      modifies this
      ensures Context() == old(Context())
      ensures Holding(walk, Now(), []) && Extends(old(Now()), Now(), {b})
      ensures TransfersOk(Now(), LoopSite(walk.site, LoopFrame(head, after, walk.site.scopes, walk.site.scopes)),
                          flow.transfers, k')
      ensures flow.normal.Some? ==>
                && EndOk(Now(), walk.site, flow.normal.value, k'(Normal))
                && (flow.normal.value == b || flow.normal.value >= |old(notes)|)
      ensures SimulatesSeq(graph, body, e', b, [], flow)
      ensures Predicted(flow, CompletesSeq(body), OutsSeq(body, e'))
      decreases body, 1
    {
      hide CanWalk, AfterSeq, DistinctSeq, PlacedSeq, ScopesInSeq, SimulatesSeq, Predicted, CompletesSeq;
      hide OutsSeq, TextOf;
      hide CacheOk, ReturnsOk, OriginsOk, Labelled, GraphOk, TransfersOk, Grown, NewKeys, EndOk, Feeds;
      var frame := LoopFrame(head, after, cleanupScopes, cleanupScopes);
      ghost var w0 := Now();
      ghost var key := (loopStack + [frame], dispatchStack);
      LoopBase(walk, activeReturn, future, w0, frame, k');
      bases := bases[key := Base(k', |cleanupScopes|)];
      ghost var w1 := Now();
      assert w1 == WithBase(w0, key, Base(k', |cleanupScopes|));
      NoNewKeys(walk.start, w1);
      LoopCanWalk(walk, activeReturn, future, w1, [], frame, b, body, e', k');
      loopStack := loopStack + [frame];
      ghost var inner := LoopWalk(walk, w1, frame, b, body, k');
      assert inner == Begin(b, ScopesInSeq(body), k');
      flow := WalkSeq(body, b, k');
      loopStack := loopStack[..|loopStack| - 1];
      LoopBodyDone(walk, w0, w1, Now(), inner, flow);
    }

    /** The edges back to the header, and the jumps out of the body. */
    method CloseLoop(s: Stmt, head: BlockId, b: BlockId, after: BlockId, bflow: Flow, ghost walk: Walk, ghost e: Env)
      returns (flow: Flow)
      requires s.Loop? && Holding(walk, Now(), []) && LoopOpen(walk, Now(), s, head, b, after, After(s, e, walk.k))
      requires TransfersOk(Now(), LoopSite(walk.site, LoopFrame(head, after, walk.site.scopes, walk.site.scopes)),
                           bflow.transfers, TurnKont(s, e, walk.k))
      requires bflow.normal.Some? ==>
                 && EndOk(Now(), walk.site, bflow.normal.value, BackFuture(s, e, walk.k))
                 && bflow.normal.value >= |walk.start.notes| && bflow.normal.value != after
      requires SimulatesSeq(graph, s.body, e.(inLoop := true), b, [], bflow)
      requires Predicted(bflow, CompletesSeq(s.body), OutsSeq(s.body, e.(inLoop := true)))
      modifies `graph, `closed
      ensures Finished(walk, Now(), flow)
      ensures Simulates(graph, s, e, walk.cur, walk.start.graph.Content(walk.cur), flow)
      ensures Predicted(flow, Completes(s), Outs(s, e))
    {
      hide CacheOk, BasesOk, ReturnsOk, OriginsOk, Labelled, EdgeOk, TransferOk, IsRunSeq, SimulatesSeq;
      hide Simulates, TextOf, After, IsRun, Feeds, Mark;
      hide Predicted, Completes, CompletesSeq, Outs, OutsSeq, Routed, KeptOutcomes, Finished;
      ghost var future := After(s, e, walk.k);
      ghost var frame := LoopFrame(head, after, walk.site.scopes, walk.site.scopes);
      TurnCases(s, e, walk.k);
      hide Behind, TurnKont, Refs;
      ghost var w0 := Now();
      LinkBack(bflow, head, LoopBack, walk, future, TurnKont(s, e, walk.k), s, b, frame, e);
      ghost var w1 := Now();
      LoopOpenKept(walk, w0, w1, (if bflow.normal.Some? then {bflow.normal.value} else {}) - w0.closed, s, head, b,
                   after, future);
      var kept := RouteJumps(bflow.transfers, head, after, frame, TurnKont(s, e, walk.k), walk);
      LoopOpenKept(walk, w1, Now(), {}, s, head, b, after, future);
      hide Extends, Holding, LoopOpen;
      SimulatesSeqGrown(w1.graph, graph, s.body, e.(inLoop := true), b, [], bflow);
      if bflow.normal.Some? {
        EdgeGrown(w1.graph, graph, {}, bflow.normal.value, Mark(LoopBack), head);
      }
      flow := LoopFlow(head, after, kept);
      LoopEnds(walk, Now(), s, e, head, b, after, bflow, kept);
    }

    /** The edge from the end of a loop body to the header, if the body ends normally. */
    method LinkBack(
      bflow: Flow, head: BlockId, kind: EdgeKind, ghost walk: Walk, ghost future: Future, ghost k': Kont, ghost s: Stmt,
      ghost b: BlockId, ghost frame: LoopFrame, ghost e: Env)
      requires (s.Loop? || s.Repeat?) && Holding(walk, Now(), []) && Now().Has(head)
      requires notes[head] == Note(future, walk.site.scopes, Plain) && KindFits(kind, Plain)
      requires TransfersOk(Now(), LoopSite(walk.site, frame), bflow.transfers, k')
      requires bflow.normal.Some? ==>
                 && EndOk(Now(), walk.site, bflow.normal.value, Behind(Mark(kind), future))
                 && bflow.normal.value >= |walk.start.notes|
      requires SimulatesSeq(graph, s.body, e.(inLoop := true), b, [], bflow)
      modifies `graph, `closed
      ensures Holding(walk, Now(), [])
      ensures Extends(old(Now()), Now(), (if bflow.normal.Some? then {bflow.normal.value} else {}) - old(closed))
      ensures TransfersOk(Now(), LoopSite(walk.site, frame), bflow.transfers, k')
      ensures bflow.normal.Some? ==> graph.Links(bflow.normal.value, Mark(kind), head)
      ensures SimulatesSeq(graph, s.body, e.(inLoop := true), b, [], bflow)
    {
      hide CacheOk, BasesOk, ReturnsOk, OriginsOk, Labelled, EdgeOk, TransfersOk, SimulatesSeq, Feeds, TextOf;
      hide Mark, Behind;
      ghost var before := Now();
      if bflow.normal.Some? {
        var end := bflow.normal.value;
        FeedsBehind(graph.Content(end), Mark(kind), future, notes[end].future);
        AddEdge(end, head, kind, walk, []);
        TransfersKept(before, Now(), {end} - before.closed, LoopSite(walk.site, frame), bflow.transfers, k');
        SimulatesSeqGrown(before.graph, graph, s.body, e.(inLoop := true), b, [], bflow);
      } else {
        ExtendsRefl(before);
      }
    }

    method WalkLoop(s: Stmt, cur: BlockId, ghost k: Kont) returns (flow: Flow)
      requires s.Loop? && Distinct(s) && Placed(s, Here().Depths(), placements)
      requires CanWalk(Begin(cur, ScopesIn(s), k), activeReturn, After(s, Around(), k))
      modifies this
      ensures Context() == old(Context())
      ensures Finished(old(Begin(cur, ScopesIn(s), k)), Now(), flow)
      ensures Simulates(graph, s, old(Around()), cur, old(graph.Content(cur)), flow)
      ensures Predicted(flow, Completes(s), Outs(s, old(Around())))
      decreases s, 4
    {
      hide CanWalk, Finished, Simulates, SimulatesSeq, After, AfterSeq, EndOk, EnvAt, TransfersOk, Reserved, TextOf;
      hide Distinct, DistinctSeq, Placed, PlacedSeq, ScopesIn, ScopesInSeq, Completes, CompletesSeq, Outs;
      hide OutsSeq, Predicted;
      hide CacheOk, BasesOk, ReturnsOk, OriginsOk, Labelled, GraphOk, Extends, NewKeys, OwnHomes, Refs, Feeds;
      hide Grown, Follows;
      ghost var walk := Begin(cur, ScopesIn(s), k);
      ghost var e := Around();
      ghost var future := After(s, e, k);
      Begins(walk, activeReturn, future);
      LoopParts(s, Here().Depths(), placements);
      OwnPlaced(s, Here().Depths(), placements);
      var head, b, after := OpenLoop(s, cur, walk, e);
      ghost var before := Now();
      LoopBlocks(walk, before, s, head, b, after, future, TurnFuture(s, e, k));
      var bflow := WalkLoopBody(s.body, b, head, after, future, e.(inLoop := true), TurnKont(s, e, k), walk);
      LoopOpenKept(walk, before, Now(), {b}, s, head, b, after, future);
      flow := CloseLoop(s, head, b, after, bflow, walk, e);
    }

    /** The body, condition and exit blocks of a `repeat` loop. */
    method OpenRepeat(s: Stmt, cur: BlockId, ghost walk: Walk, ghost e: Env)
      returns (b: BlockId, head: BlockId, after: BlockId)
      requires s.Repeat? && walk.start == Now() && walk.cur == cur && Holding(walk, Now(), [])
      requires Now().Usable(cur) && EndOk(Now(), walk.site, cur, After(s, e, walk.k))
      modifies `graph, `notes, `closed
      ensures Holding(walk, Now(), []) && RepeatOpen(walk, Now(), s, head, b, after, e) && b != head && b != after
      ensures Reserved(walk, Now(), b, Note(TurnFuture(s, e, walk.k), walk.site.scopes, Plain))
    {
      hide CacheOk, BasesOk, ReturnsOk, OriginsOk, Labelled, TransfersOk, EdgeOk, IsRun, IsRunSeq, TextOf;
      ghost var cond := RepeatCondition(s, e, walk.k);
      ghost var inside := TurnFuture(s, e, walk.k);
      RepeatBodyFeeds(s, e, walk.k);
      FeedsWeaken(graph.Content(cur), inside, After(s, e, walk.k), notes[cur].future);
      hide After, AfterSeq, RepeatCondition, Feeds;
      b, head, after := ReserveThree(
        Note(inside, walk.site.scopes, Plain), Note(cond, walk.site.scopes, Plain),
            Note(walk.k(Normal), walk.site.scopes, Plain), walk);
      ghost var w0 := Now();
      ContentKept(walk.start, w0, {}, cur);
      AddPlainEdge(cur, b, Normally, walk, []);
      hide Extends, Grown;
      ReservedKept(walk, w0, Now(), {cur} - w0.closed, b, Note(inside, walk.site.scopes, Plain));
      ReservedKept(walk, w0, Now(), {cur} - w0.closed, head, Note(cond, walk.site.scopes, Plain));
      ReservedKept(walk, w0, Now(), {cur} - w0.closed, after, Note(walk.k(Normal), walk.site.scopes, Plain));
    }

    /** The references of the condition, and its edges back to the body and out of the loop. */
    method LinkRepeat(
      s: Stmt, b: BlockId, head: BlockId, after: BlockId, ghost walk: Walk, ghost e: Env,
      ghost ts: seq<Transfer>)
      requires s.Repeat? && Holding(walk, Now(), ts) && RepeatOpen(walk, Now(), s, head, b, after, e)
      requires OwnHomes(s, walk.site.Depths()) <= walk.program.placements.homes
      requires b != head && b != after
      modifies `graph, `closed
      ensures Holding(walk, Now(), ts) && Extends(old(Now()), Now(), {head})
      ensures RepeatClosed(walk, Now(), s, head, b, after, e)
    {
      hide Holding, GraphOk, Extends, Grown, TextOf, AfterSeq, RepeatCondition, Feeds, Mark, TurnFuture, RepeatClosed;
      hide Refs, RepeatFilled;
      RepeatPlaced(s, walk.site.Depths(), walk.program.placements);
      ghost var w0 := Now();
      HoldingGraph(walk, w0, ts);
      AddStmts(head, [s.keyword, s.condition], walk, ts);
      ghost var w1 := Now();
      HoldingGraph(walk, w1, ts);
      FillStep(walk, w0, w1, s, head, b, after, e);
      hide RepeatOpen, OwnHomes, CanHold;
      LinkRepeatEdges(s, b, head, after, walk, e, ts);
      ExtendsTrans(w0, w1, Now(), {head}, {}, {head});
    }

    method LinkRepeatEdges(
      s: Stmt, b: BlockId, head: BlockId, after: BlockId, ghost walk: Walk, ghost e: Env,
      ghost ts: seq<Transfer>)
      requires s.Repeat? && Holding(walk, Now(), ts) && RepeatFilled(walk, Now(), s, head, b, after, e)
      modifies `graph, `closed
      ensures Holding(walk, Now(), ts) && Extends(old(Now()), Now(), {})
      ensures RepeatClosed(walk, Now(), s, head, b, after, e)
    {
      hide Holding, GraphOk, Extends, Grown, TextOf, RepeatCondition, Mark, TurnFuture, Refs;
      RepeatHeadFeeds(s, e, walk.k);
      hide Feeds;
      ghost var w0 := Now();
      HoldingGraph(walk, w0, ts);
      AddClosedEdge(head, b, LoopBack, walk, ts);
      ghost var w1 := Now();
      HoldingGraph(walk, w1, ts);
      FilledKept(walk, w0, w1, s, head, b, after, e);
      AddClosedEdge(head, after, LoopExit, walk, ts);
      HoldingGraph(walk, Now(), ts);
      ExtendsTrans(w0, w1, Now(), {}, {}, {});
      EdgeGrown(w1.graph, graph, {}, head, Mark(LoopBack), b);
      FilledKept(walk, w1, Now(), s, head, b, after, e);
    }

    /** The end of the body leads to the condition; then the condition is filled in. */
    method CloseRepeat(s: Stmt, b: BlockId, head: BlockId, after: BlockId, bflow: Flow, ghost walk: Walk, ghost e: Env)
      returns (flow: Flow)
      requires s.Repeat? && Holding(walk, Now(), []) && RepeatOpen(walk, Now(), s, head, b, after, e)
      requires OwnHomes(s, walk.site.Depths()) <= walk.program.placements.homes
      requires b != head && b != after
      requires TransfersOk(Now(), LoopSite(walk.site, LoopFrame(head, after, walk.site.scopes, walk.site.scopes)),
                           bflow.transfers, TurnKont(s, e, walk.k))
      requires bflow.normal.Some? ==>
                 && EndOk(Now(), walk.site, bflow.normal.value, RepeatCondition(s, e, walk.k))
                 && bflow.normal.value >= |walk.start.notes| && bflow.normal.value != after
                 && bflow.normal.value != head
      requires SimulatesSeq(graph, s.body, e.(inLoop := true), b, [], bflow)
      requires Predicted(bflow, CompletesSeq(s.body), OutsSeq(s.body, e.(inLoop := true)))
      modifies `graph, `closed
      ensures Finished(walk, Now(), flow)
      ensures Simulates(graph, s, e, walk.cur, walk.start.graph.Content(walk.cur), flow)
      ensures Predicted(flow, Completes(s), Outs(s, e))
    {
      hide CacheOk, BasesOk, ReturnsOk, OriginsOk, Labelled, EdgeOk, IsRun, IsRunSeq, SimulatesSeq, Simulates, TextOf;
      hide Predicted, Completes, CompletesSeq, Outs, OutsSeq, Routed, KeptOutcomes, Finished, Refs, RepeatEdges;
      hide After, AfterSeq, RepeatCondition, Feeds, TransferOk, TurnFuture;
      ghost var cond := RepeatCondition(s, e, walk.k);
      ghost var frame := LoopFrame(head, after, walk.site.scopes, walk.site.scopes);
      TurnCases(s, e, walk.k);
      BehindNothing(cond);
      hide TurnKont, Behind;
      ghost var w0 := Now();
      LinkBack(bflow, head, Normally, walk, cond, TurnKont(s, e, walk.k), s, b, frame, e);
      ghost var w1 := Now();
      RepeatOpenKept(walk, w0, w1, (if bflow.normal.Some? then {bflow.normal.value} else {}) - w0.closed, s, head, b,
                     after, e);
      var kept := RouteJumps(bflow.transfers, head, after, frame, TurnKont(s, e, walk.k), walk);
      ghost var w2 := Now();
      RepeatOpenKept(walk, w1, w2, {}, s, head, b, after, e);
      SimulatesSeqGrown(w1.graph, w2.graph, s.body, e.(inLoop := true), b, [], bflow);
      LinkRepeat(s, b, head, after, walk, e, kept);
      assert forall t :: t in bflow.transfers ==> TransferOk(w1, LoopSite(walk.site, frame), t, TurnKont(s, e, walk.k));
      RepeatRouted(walk, w1, w2, Now(), head, after, LoopSite(walk.site, frame), TurnKont(s, e, walk.k), bflow,
                   kept, s.body, e.(inLoop := true), b);
      hide Extends, Holding, RepeatClosed, RepeatOpen, Turns;
      flow := LoopFlow(head, after, kept);
      RepeatEnds(walk, Now(), s, e, head, b, after, bflow, kept);
    }

    method WalkRepeat(s: Stmt, cur: BlockId, ghost k: Kont) returns (flow: Flow)
      requires s.Repeat? && Distinct(s) && Placed(s, Here().Depths(), placements)
      requires CanWalk(Begin(cur, ScopesIn(s), k), activeReturn, After(s, Around(), k))
      modifies this
      ensures Context() == old(Context())
      ensures Finished(old(Begin(cur, ScopesIn(s), k)), Now(), flow)
      ensures Simulates(graph, s, old(Around()), cur, old(graph.Content(cur)), flow)
      ensures Predicted(flow, Completes(s), Outs(s, old(Around())))
      decreases s, 4
    {
      hide CanWalk, Finished, Simulates, SimulatesSeq, After, AfterSeq, EndOk, EnvAt, TransfersOk;
      hide RepeatCondition, TextOf;
      hide Distinct, DistinctSeq, Placed, PlacedSeq, ScopesIn, ScopesInSeq, Completes, CompletesSeq, Outs;
      hide OutsSeq, Predicted;
      hide CacheOk, BasesOk, ReturnsOk, OriginsOk, Labelled, GraphOk, Extends, NewKeys;
      ghost var walk := Begin(cur, ScopesIn(s), k);
      ghost var e := Around();
      Begins(walk, activeReturn, After(s, e, k));
      LoopParts(s, Here().Depths(), placements);
      var b, head, after := OpenRepeat(s, cur, walk, e);
      ghost var before := Now();
      var bflow := WalkLoopBody(s.body, b, head, after, After(s, e, k), e.(inLoop := true),
                                TurnKont(s, e, k), walk);
      RepeatOpenKept(walk, before, Now(), {b}, s, head, b, after, e);
      OwnPlaced(s, Here().Depths(), placements);
      flow := CloseRepeat(s, b, head, after, bflow, walk, e);
    }

    // ---- try..except

    /** Take a dispatch identity and walk the guarded body under it. */
    method WalkGuardedBody(s: Stmt, cur: BlockId, ghost future: Future, ghost k': Kont, ghost walk: Walk)
      returns (ghost id: nat, flow: Flow)
      requires s.TryExcept? && walk == Begin(cur, walk.scopes, walk.k) && CanWalk(walk, activeReturn, future)
      requires Holding(walk, Now(), []) && AfterSeq(s.body, Around(), k') <= future && k'(Normal) == walk.k(Normal)
      requires DistinctSeq(s.body) && PlacedSeq(s.body, Here().Depths().InGuarded(), placements)
      requires ScopesInSeq(s.body) <= walk.scopes
      modifies this
      ensures Context() == old(Context())
      ensures Holding(walk, Now(), []) && NewKeys(walk.start, Now(), ScopesInSeq(s.body))
      ensures Guarded(walk, Now(), GuardSite(walk.site, id), s.body, old(Around()), k', flow)
      decreases s, 3
    {
      hide CacheOk, ReturnsOk, OriginsOk, Labelled, TransfersOk, EdgeOk, AfterSeq, SimulatesSeq, Predicted;
      hide DistinctSeq, PlacedSeq, TextOf;
      hide ScopesInSeq, EnvAt, CompletesSeq, OutsSeq, ActiveOk, FreshFor, Follows, Apart, ScopesPlaced;
      ghost var e := Around();
      ghost var w0 := Now();
      id := nextDispatch;
      DispatchStep(walk, w0, []);
      if s.body == [] {
        nextDispatch := nextDispatch + 1;
        flow := Flow(Some(cur), []);
        AfterSeqEmpty(e, k');
        EmptyGuarded(walk, Now(), GuardSite(walk.site, id), e, k', future);
        NoNewKeys(walk.start, Now());
        return;
      }
      var b;
      b := EnterTry(cur, s.body, e, k', future, None, walk);
      assert walk.site.scopes + [] == walk.site.scopes;
      flow := WalkGuarded(s, cur, b, future, e, k', walk);
    }

    /** The block in which a protected body starts, and the edge into it. */
    method EnterTry(
      cur: BlockId, ghost body: seq<Stmt>, ghost e: Env, ghost k': Kont, ghost future: Future,
      ghost inner: Option<ScopeId>, ghost walk: Walk)
      returns (b: BlockId)
      requires walk.start == Now() && walk.cur == cur && Holding(walk, Now(), [])
      requires EndOk(Now(), walk.site, cur, future) && AfterSeq(body, e, k') <= future
      modifies `graph, `notes, `closed
      ensures Holding(walk, Now(), []) && graph.Links(cur, [], b) && cur in closed && Now().Has(cur)
      ensures graph.Content(cur) == old(graph.Content(cur))
      ensures Reserved(walk, Now(), b,
                       Note(AfterSeq(body, e, k'), walk.site.scopes + (if inner.Some? then [inner.value] else []),
                            Plain))
    {
      hide CacheOk, BasesOk, ReturnsOk, OriginsOk, Labelled, TransfersOk, EdgeOk, AfterSeq, TextOf;
      FeedsWeaken(graph.Content(cur), AfterSeq(body, e, k'), future, notes[cur].future);
      hide Feeds;
      b := NewBlock(Plain, Note(AfterSeq(body, e, k'), walk.site.scopes + (if inner.Some? then [inner.value] else []),
                                Plain), walk, []);
      if inner.Some? {
        assert (walk.site.scopes + [inner.value])[..|walk.site.scopes|] == walk.site.scopes;
      } else {
        assert walk.site.scopes + [] == walk.site.scopes;
      }
      AddPlainEdge(cur, b, Normally, walk, []);
    }

    /** Take the next dispatch identity and open its context. */
    method EnterGuard(
      b: BlockId, ghost body: seq<Stmt>, ghost future: Future, ghost e: Env, ghost k': Kont, ghost walk: Walk)
      requires walk == Walk(Fixed(), walk.start, walk.cur, walk.scopes, activeKeys, Here(), walk.k)
      requires CanWalk(walk, activeReturn, future) && Holding(walk, Now(), [])
      requires finalizerCache == walk.start.cache && bases == walk.start.bases
      requires nextDispatch == walk.start.nextDispatch
      requires Reserved(walk, Now(), b, Note(AfterSeq(body, e, k'), walk.site.scopes, Plain))
      requires ScopesInSeq(body) <= walk.scopes
      modifies `nextDispatch, `bases, `dispatchStack, `implicitDepth
      ensures dispatchStack == old(dispatchStack) + [walk.start.nextDispatch] && implicitDepth == old(implicitDepth) + 1
      ensures Here() == GuardSite(walk.site, walk.start.nextDispatch)
      ensures Here().Depths() == walk.site.Depths().InGuarded()
      ensures Holding(walk, Now(), []) && Extends(old(Now()), Now(), {})
      ensures Reserved(walk, Now(), b, Note(AfterSeq(body, e, k'), walk.site.scopes, Plain))
      ensures CanWalk(walk.(start := Now(), cur := b, scopes := ScopesInSeq(body), site := Here(), k := k'),
                      activeReturn, AfterSeq(body, e, k'))
    {
      hide CanWalk, Holding, AfterSeq, ScopesInSeq, Extends, Reserved, TextOf;
      ghost var w0 := Now();
      ghost var note := Note(AfterSeq(body, e, k'), walk.site.scopes, Plain);
      ghost var key := (loopStack, dispatchStack + [nextDispatch]);
      DispatchStep(walk, w0, []);
      var id := nextDispatch;
      nextDispatch := nextDispatch + 1;
      ghost var w1 := Now();
      GuardBase(walk, activeReturn, future, w1, id, k');
      bases := bases[key := Base(k', |cleanupScopes|)];
      GuardReady(walk, w0, w1, Now(), b, note);
      GuardCanWalk(walk, activeReturn, future, Now(), b, body, e, id, k');
      dispatchStack := dispatchStack + [id];
      implicitDepth := implicitDepth + 1;
    }

    method WalkGuarded(
      s: Stmt, cur: BlockId, b: BlockId, ghost future: Future, ghost e: Env, ghost k': Kont, ghost walk: Walk)
      returns (flow: Flow)
      requires s.TryExcept? && walk == Walk(Fixed(), walk.start, cur, walk.scopes, activeKeys, Here(), walk.k)
      requires CanWalk(walk, activeReturn, future) && Holding(walk, Now(), []) && e == EnvAt(walk.program, walk.site)
      requires finalizerCache == walk.start.cache && bases == walk.start.bases
      requires nextDispatch == walk.start.nextDispatch
      requires Reserved(walk, Now(), b, Note(AfterSeq(s.body, e, k'), walk.site.scopes, Plain))
      requires k'(Normal) == walk.k(Normal)
      requires graph.Links(cur, [], b) && cur in closed && Now().Has(cur)
      requires graph.Content(cur) == walk.start.graph.Content(cur)
      requires DistinctSeq(s.body) && PlacedSeq(s.body, Here().Depths().InGuarded(), placements)
      requires ScopesInSeq(s.body) <= walk.scopes
      modifies this
      ensures Context() == old(Context())
      ensures Holding(walk, Now(), []) && NewKeys(walk.start, Now(), ScopesInSeq(s.body))
      ensures Guarded(walk, Now(), GuardSite(walk.site, walk.start.nextDispatch), s.body, e, k', flow)
      decreases s, 2
    {
      hide CanWalk, Holding, AfterSeq, DistinctSeq, PlacedSeq, ScopesInSeq, SimulatesSeq, Predicted;
      hide CompletesSeq, OutsSeq, TextOf;
      hide EnvAt, Guarded, Extends, NewKeys, Finished;
      ghost var w0 := Now();
      ghost var id := nextDispatch;
      ghost var note := Note(AfterSeq(s.body, e, k'), walk.site.scopes, Plain);
      EnterGuard(b, s.body, future, e, k', walk);
      ghost var w2 := Now();
      ghost var inner := walk.(start := w2, cur := b, scopes := ScopesInSeq(s.body), site := Here(), k := k');
      assert inner == Begin(b, ScopesInSeq(s.body), k');
      GuardEnv(walk.program, walk.site, id);
      flow := WalkSeq(s.body, b, k');
      implicitDepth := implicitDepth - 1;
      dispatchStack := dispatchStack[..|dispatchStack| - 1];
      GuardDone(walk, w0, w2, Now(), inner, id, b, note, s.body, e, flow);
    }

    /** Walk one handler from a dispatch block of its own. */
    method WalkHandler(
      h: Handler, facts: seq<Fact>, ghost ex: Excepting, ghost future: Future,
      ghost hs: seq<Handler>, ghost hfs: seq<HandlerFlow>, ghost ts: seq<Transfer>, ghost used: set<ScopeId>)
      returns (hf: HandlerFlow)
      requires ex.walk == Walk(Fixed(), ex.walk.start, ex.walk.cur, ex.walk.scopes, activeKeys, Here(), ex.walk.k)
      requires ex.env == EnvAt(ex.walk.program, ex.walk.site) && CanWalk(ex.walk, activeReturn, future)
      requires ex.Ok(Now(), hs, hfs, ts) && FactSet(facts) == ex.Incoming()
      requires NewKeys(ex.walk.start, Now(), used) && used !! ScopesInSeq(h.body)
      requires ScopesInSeq(h.body) <= ex.walk.scopes
      requires DistinctSeq(h.body) && PlacedSeq(h.body, Here().Depths().InHandler(), placements)
      modifies this
      ensures Context() == old(Context())
      ensures ex.Ok(Now(), hs + [h], hfs + [hf], ts + hf.flow.transfers)
      ensures NewKeys(ex.walk.start, Now(), used + ScopesInSeq(h.body))
      decreases h.body, 1
    {
      hide CanWalk, Finished, SimulatesSeq, Predicted, AfterSeq, CompletesSeq, OutsSeq, EnvAt, NewKeys;
      hide ScopesInSeq, DistinctSeq, PlacedSeq, TextOf;
      hide Extends, Reserved, HandlersOk, HandlersPredicted, Guarded, HandlerEnv, WorldOk, TransfersOk, Refs;
      hide HandlerNote, Feeds, IsRunSeq, Holding;
      var b := ReserveHandler(h, ex, hs, hfs, ts, used);
      ghost var w0 := Now();
      var fact := Unknown;
      if h.Typed? {
        fact := ComputeHandlerContext(index, HandlerFact(h), facts);
      }
      HandlerReady(ex, activeReturn, future, w0, hs, hfs, ts, b, h, fact, used);
      handledStack := handledStack + [fact];
      implicitDepth := implicitDepth + 1;
      ghost var inner := ex.walk.(start := w0, cur := b, scopes := ScopesInSeq(h.body),
                                  site := HandlerSite(ex.walk.site, fact));
      assert inner == Begin(b, ScopesInSeq(h.body), ex.walk.k);
      var flow := WalkSeq(h.body, b, ex.walk.k);
      implicitDepth := implicitDepth - 1;
      handledStack := handledStack[..|handledStack| - 1];
      ExceptingNext(ex, w0, Now(), hs, hfs, ts, h, b, fact, flow);
      HandlerKeys(ex, inner, w0, Now(), flow, used, ScopesInSeq(h.body));
      hf := HandlerFlow(b, flow);
    }

    method ReserveHandler(
      h: Handler, ghost ex: Excepting, ghost hs: seq<Handler>, ghost hfs: seq<HandlerFlow>,
      ghost ts: seq<Transfer>, ghost used: set<ScopeId>)
      returns (b: BlockId)
      requires ex.Ok(Now(), hs, hfs, ts) && NewKeys(ex.walk.start, Now(), used)
      modifies `graph, `notes
      ensures ex.Ok(Now(), hs, hfs, ts) && Reserved(ex.walk, Now(), b, HandlerNote(ex, h))
      ensures ex.body.normal != Some(b) && forall j :: 0 <= j < |hfs| ==> hfs[j].flow.normal != Some(b)
      ensures NewKeys(ex.walk.start, Now(), used)
    {
      hide HandlersOk, HandlersPredicted, Guarded, AfterSeq, CacheOk, BasesOk, ReturnsOk, OriginsOk, Labelled;
      hide TransfersOk, EdgeOk, TextOf;
      ghost var w0 := Now();
      ExceptingBelow(ex, w0, hs, hfs, ts);
      b := NewBlock(HandlerKind(h), HandlerNote(ex, h), ex.walk, ts);
      ExceptingKept(ex, w0, Now(), {}, hs, hfs, ts);
      SameKeys(ex.walk.start, w0, Now(), used);
    }

    /** Walk the handlers in order; without any, one empty catch-all. */
    method BuildHandlers(s: Stmt, exceptions: seq<Transfer>, ghost ex: Excepting, ghost future: Future)
      returns (hfs: seq<HandlerFlow>, transfers: seq<Transfer>)
      requires s.TryExcept? && ex.stmt == s && exceptions == Exceptions(ex.body.transfers)
      requires ex.walk == Walk(Fixed(), ex.walk.start, ex.walk.cur, ex.walk.scopes, activeKeys, Here(), ex.walk.k)
      requires ex.env == EnvAt(ex.walk.program, ex.walk.site) && CanWalk(ex.walk, activeReturn, future)
      requires ex.Ok(Now(), [], [], []) && NewKeys(ex.walk.start, Now(), ScopesInSeq(s.body))
      requires ScopesInSeq(s.body) !! ScopesInHandlers(s.handlers) && ScopesInHandlers(s.handlers) <= ex.walk.scopes
      requires DistinctHandlers(s.handlers) && PlacedHandlers(s.handlers, Here().Depths().InHandler(), placements)
      modifies this
      ensures Context() == old(Context())
      ensures ex.Ok(Now(), Effective(s.handlers), hfs, transfers)
      decreases s, 2
    {
      hide CanWalk, EnvAt, NewKeys, ScopesInSeq, DistinctSeq, PlacedSeq, ScopesInHandlers, DistinctHandlers;
      hide PlacedHandlers, TextOf;
      hide Holding, HandlersOk, HandlersPredicted, Guarded, Reserved, HandlerNote;
      var facts := FactsIn(exceptions);
      BodyFacts(ex, Now(), [], [], []);
      hide OutsSeq, FactSet, FactsOf, FactsIn;
      hfs, transfers := [], [];
      if s.handlers == [] {
        var b := ReserveHandler(CatchAll([]), ex, [], [], [], ScopesInSeq(s.body));
        ExceptingDefault(ex, Now(), b);
        hfs := [HandlerFlow(b, Flow(Some(b), []))];
        return;
      }
      var i := 0;
      assert s.handlers[..0] == [];
      NoHandlerScopes(ScopesInSeq(s.body));
      while i < |s.handlers|
        invariant 0 <= i <= |s.handlers| && Context() == old(Context())
        invariant ex.Ok(Now(), s.handlers[..i], hfs, transfers)
        invariant NewKeys(ex.walk.start, Now(), ScopesInSeq(s.body) + ScopesInHandlers(s.handlers[..i]))
      {
        var h := s.handlers[i];
        HandlerElement(s.handlers, Here().Depths().InHandler(), placements, i);
        ghost var used := ScopesInSeq(s.body) + ScopesInHandlers(s.handlers[..i]);
        var hf := WalkHandler(h, facts, ex, future, s.handlers[..i], hfs, transfers, used);
        assert s.handlers[..i + 1] == s.handlers[..i] + [h];
        assert used + ScopesInSeq(h.body) == ScopesInSeq(s.body) + ScopesInHandlers(s.handlers[..i + 1]);
        hfs, transfers := hfs + [hf], transfers + hf.flow.transfers;
        i := i + 1;
      }
      assert s.handlers[..i] == s.handlers;
    }

    /** Link one pending exception to the handlers that may receive it; may it escape them? */
    method DispatchException(
      t: Transfer, hs: seq<Handler>, hfs: seq<HandlerFlow>, ghost ex: Excepting, ghost ts: seq<Transfer>)
      returns (escapes: bool)
      requires ex.Ok(Now(), hs, hfs, ts) && hs == Effective(ex.stmt.handlers) && t in Exceptions(ex.body.transfers)
      requires ex.env.index == index
      modifies `graph, `closed
      ensures ex.Ok(Now(), hs, hfs, ts) && closed == old(closed) && Grown(old(graph), graph, {})
      ensures Extends(old(Now()), Now(), {})
      ensures Dispatched(graph, index, hs, hfs, FactOf(t), t.source) && (escapes <==> Escapes(index, hs, FactOf(t)))
    {
      hide Holding, Guarded, HandlersPredicted, HandlerOk, Grown, Extends, Linking, MatchHandler, MayCatch;
      hide OutsSeq, Dispatched, Escapes, GraphOk, TextOf;
      escapes := true;
      var j := 0;
      GrownSelf(graph);
      ExtendsRefl(Now());
      NoLinks(graph, index, hs, hfs, FactOf(t), t.source);
      HoldingGraph(ex.walk, Now(), ts);
      while j < |hs| && escapes
        invariant 0 <= j <= |hs| && ex.Ok(Now(), hs, hfs, ts) && closed == old(closed)
        invariant Grown(old(graph), graph, {}) && Extends(old(Now()), Now(), {})
        invariant Linking(graph, index, hs, hfs, FactOf(t), t.source, j, escapes)
        decreases |hs| - j
      {
        escapes := LinkHandler(t, j, hs, hfs, ex, ts, old(Now()));
        j := j + 1;
      }
      LinkingDone(graph, index, hs, hfs, FactOf(t), t.source, j, escapes);
    }

    method LinkHandler(
      t: Transfer, j: nat, hs: seq<Handler>, hfs: seq<HandlerFlow>, ghost ex: Excepting,
      ghost ts: seq<Transfer>, ghost w0: World)
      returns (escapes: bool)
      requires ex.Ok(Now(), hs, hfs, ts) && hs == Effective(ex.stmt.handlers) && t in Exceptions(ex.body.transfers)
      requires j < |hs| && ex.env.index == index && closed == w0.closed && GraphOk(w0)
      requires Linking(graph, index, hs, hfs, FactOf(t), t.source, j, true)
      requires Grown(w0.graph, graph, {}) && Extends(w0, Now(), {})
      modifies `graph, `closed
      ensures ex.Ok(Now(), hs, hfs, ts) && closed == w0.closed && Grown(w0.graph, graph, {}) && Extends(w0, Now(), {})
      ensures Linking(graph, index, hs, hfs, FactOf(t), t.source, j + 1, escapes)
    {
      hide Holding, Guarded, HandlersPredicted, HandlerOk, Grown, Extends, MatchHandler, MayCatch, Linking;
      hide OutsSeq, Feeds, GraphOk, TextOf;
      ghost var before := Now();
      HoldingGraph(ex.walk, before, ts);
      var h := hs[j];
      escapes := h.Typed? && MatchHandler(index, FactOf(t), HandlerFact(h)) != Yes;
      MayCatchHere(index, hs, FactOf(t), j, graph, hfs, t.source);
      if h.CatchAll? || MatchHandler(index, FactOf(t), HandlerFact(h)) != No {
        CatchEdge(ex, before, hfs, ts, t, j);
        AddClosedEdge(t.source, hfs[j].entry, ExceptionThrow, ex.walk, ts);
      } else {
        GrownSelf(graph);
        ExtendsRefl(before);
      }
      LinkingGrown(before.graph, graph, index, hs, hfs, FactOf(t), t.source, j);
      ExceptingGrown(ex, before, Now(), {}, hs, hfs, ts);
      GrownTrans(w0.graph, before.graph, graph);
      ExtendsTrans(w0, before, Now(), {}, {}, {});
    }

    /** Dispatch all pending exceptions; those that may escape stay pending. */
    method DispatchExceptions(
      exceptions: seq<Transfer>, hs: seq<Handler>, hfs: seq<HandlerFlow>, ghost ex: Excepting,
      ghost ts: seq<Transfer>)
      returns (kept: seq<Transfer>)
      requires ex.Ok(Now(), hs, hfs, ts) && hs == Effective(ex.stmt.handlers)
      requires exceptions == Exceptions(ex.body.transfers)
      requires ex.env.index == index
      modifies `graph, `closed
      ensures ex.Ok(Now(), hs, hfs, ts)
      ensures AllDispatched(graph, index, hs, hfs, exceptions, kept) && Escaped(index, hs, exceptions, kept)
    {
      hide Holding, Guarded, HandlersPredicted, HandlerOk, Grown, Extends, MayCatch, OutsSeq, Dispatched;
      hide Escapes, Exceptions, TextOf;
      kept := [];
      var i := 0;
      while i < |exceptions|
        invariant 0 <= i <= |exceptions| && ex.Ok(Now(), hs, hfs, ts)
        invariant AllDispatched(graph, index, hs, hfs, exceptions[..i], kept)
        invariant Escaped(index, hs, exceptions[..i], kept)
      {
        var t := exceptions[i];
        ghost var g := graph;
        var escapes := DispatchException(t, hs, hfs, ex, ts);
        ghost var before := kept;
        if escapes {
          kept := kept + [t];
        }
        assert exceptions[..i + 1] == exceptions[..i] + [t];
        AllDispatchedGrown(g, graph, index, hs, hfs, exceptions[..i], before, kept);
        i := i + 1;
      }
      assert exceptions[..i] == exceptions;
    }

    /** The exceptions among the transfers, and the others. */
    method SplitExceptions(ts: seq<Transfer>) returns (exceptions: seq<Transfer>, others: seq<Transfer>)
      ensures exceptions == Exceptions(ts) && others == Others(ts)
    {
      hide TextOf;
      exceptions, others := [], [];
      var i := 0;
      while i < |ts|
        invariant 0 <= i <= |ts| && exceptions == Exceptions(ts[..i]) && others == Others(ts[..i])
      {
        assert ts[..i + 1][..i] == ts[..i] && ts[..i + 1][i] == ts[i];
        if ts[i].kind.ToException? {
          exceptions := exceptions + [ts[i]];
        } else {
          others := others + [ts[i]];
        }
        i := i + 1;
      }
      assert ts[..i] == ts;
    }

    /** The block after the statement, which the body and the handlers may reach. */
    method EndTryExcept(
      s: Stmt, tflow: Flow, hfs: seq<HandlerFlow>, others: seq<Transfer>, kept: seq<Transfer>,
      ts: seq<Transfer>, ghost ex: Excepting)
      returns (flow: Flow)
      requires s.TryExcept? && ex.stmt == s && ex.body == tflow && ex.Ok(Now(), Effective(s.handlers), hfs, ts)
      requires others == Others(tflow.transfers)
      requires Escaped(ex.env.index, Effective(s.handlers), Exceptions(tflow.transfers), kept)
      requires AllDispatched(graph, ex.env.index, Effective(s.handlers), hfs, Exceptions(tflow.transfers), kept)
      modifies `graph, `notes, `closed
      ensures Finished(ex.walk, Now(), flow)
      ensures Simulates(graph, s, ex.env, ex.walk.cur, ex.walk.start.graph.Content(ex.walk.cur), flow)
      ensures Predicted(flow, Completes(s), Outs(s, ex.env))
    {
      hide Holding, Guarded, HandlerOk, HandlersPredicted, AllDispatched, Escaped, Exceptions, Others, Grown;
      hide Extends, CanJoin, TextOf;
      hide Reserved, AllEnds, Simulates, Finished, Predicted, Completes, Outs, OutsSeq;
      ghost var w0 := Now();
      var ends := AllEnds(tflow, hfs);
      AllEndsJoin(ex.walk, w0, ex.Guard(), s.body, ex.env, ex.Inner(), tflow, ex.Incoming(), Effective(s.handlers),
                  hfs, ts);
      var join := JoinEnds(ends, ex.walk, ts);
      ExceptingGrown(ex, w0, Now(), (set x | x in ends) - w0.closed, Effective(s.handlers), hfs, ts);
      AllDispatchedGrown(w0.graph, graph, ex.env.index, Effective(s.handlers), hfs, Exceptions(tflow.transfers), kept,
                         others + kept + ts);
      flow := Flow(join, others + kept + ts);
      TryExceptEnds(ex, Now(), hfs, kept, ts, join);
    }

    /** The handlers, and where each exception of the guarded body goes. */
    method WalkHandlers(s: Stmt, tflow: Flow, ghost ex: Excepting, ghost future: Future) returns (flow: Flow)
      requires s.TryExcept? && ex.stmt == s && ex.body == tflow
      requires ex.walk == Walk(Fixed(), ex.walk.start, ex.walk.cur, ex.walk.scopes, activeKeys, Here(), ex.walk.k)
      requires ex.env == EnvAt(ex.walk.program, ex.walk.site) && CanWalk(ex.walk, activeReturn, future)
      requires ex.Ok(Now(), [], [], []) && NewKeys(ex.walk.start, Now(), ScopesInSeq(s.body))
      requires ScopesInSeq(s.body) !! ScopesInHandlers(s.handlers) && ScopesInHandlers(s.handlers) <= ex.walk.scopes
      requires DistinctHandlers(s.handlers) && PlacedHandlers(s.handlers, Here().Depths().InHandler(), placements)
      modifies this
      ensures Context() == old(Context())
      ensures Finished(ex.walk, Now(), flow)
      ensures Simulates(graph, s, ex.env, ex.walk.cur, ex.walk.start.graph.Content(ex.walk.cur), flow)
      ensures Predicted(flow, Completes(s), Outs(s, ex.env))
      decreases s, 3
    {
      hide CanWalk, Holding, Finished, Simulates, EnvAt, Guarded, HandlersOk, HandlersPredicted, AllDispatched;
      hide Escaped, TextOf;
      hide DistinctHandlers, PlacedHandlers, ScopesInSeq, ScopesInHandlers, Completes, Outs, OutsSeq, Predicted;
      hide NewKeys;
      hide Exceptions, Others, Effective, FactsOf;
      EnvIndex(ex.walk.program, ex.walk.site);
      var exceptions, others := SplitExceptions(tflow.transfers);
      var hfs, ts := BuildHandlers(s, exceptions, ex, future);
      var kept := DispatchExceptions(exceptions, Effective(s.handlers), hfs, ex, ts);
      flow := EndTryExcept(s, tflow, hfs, others, kept, ts, ex);
    }

    method WalkTryExcept(s: Stmt, cur: BlockId, ghost k: Kont) returns (flow: Flow)
      requires s.TryExcept? && Distinct(s) && Placed(s, Here().Depths(), placements)
      requires CanWalk(Begin(cur, ScopesIn(s), k), activeReturn, After(s, Around(), k))
      modifies this
      ensures Context() == old(Context())
      ensures Finished(old(Begin(cur, ScopesIn(s), k)), Now(), flow)
      ensures Simulates(graph, s, old(Around()), cur, old(graph.Content(cur)), flow)
      ensures Predicted(flow, Completes(s), Outs(s, old(Around())))
      decreases s, 4
    {
      hide CanWalk, Holding, Finished, Simulates, After, AfterSeq, EnvAt, Guarded, HandlersOk;
      hide HandlersPredicted, AllDispatched, Escaped, TextOf;
      hide Distinct, DistinctSeq, DistinctHandlers, Placed, PlacedSeq, PlacedHandlers, ScopesIn, ScopesInSeq;
      hide ScopesInHandlers;
      hide Completes, Outs, OutsSeq, Predicted, NewKeys, Exceptions, Others, IsRun, IsRunSeq, WorldOk, Extends;
      hide EndOk, Effective, FactsOf;
      ghost var walk := Begin(cur, ScopesIn(s), k);
      ghost var e := Around();
      ghost var k' := ThroughExcept(s.handlers, e, FactsOf(OutsSeq(s.body, e)), k);
      Begins(walk, activeReturn, After(s, e, k));
      TryExceptParts(s, Here().Depths(), placements);
      TryExceptFeeds(s, e, k);
      ghost var id;
      var tflow;
      id, tflow := WalkGuardedBody(s, cur, After(s, e, k), k', walk);
      ghost var ex := Excepting(walk, id, s, e, tflow);
      NoHandlersYet(ex, Now());
      flow := WalkHandlers(s, tflow, ex, After(s, e, k));
    }

    // ---- try..finally

    /** Walk the body that a finalizer protects. */
    method WalkProtectedBody(s: Stmt, cur: BlockId, ghost future: Future, ghost e: Env, ghost walk: Walk)
      returns (flow: Flow)
      requires s.TryFinally? && walk == Begin(cur, walk.scopes, walk.k) && CanWalk(walk, activeReturn, future)
      requires Holding(walk, Now(), []) && e == EnvAt(walk.program, walk.site)
      requires AfterSeq(s.body, e, ThroughFinally(s.scope, s.cleanup, e, walk.k)) <= future
      requires s.scope in placements.cleanups && placements.cleanups[s.scope] == Placement(s.cleanup, Here().Depths())
      requires DistinctSeq(s.body) && PlacedSeq(s.body, Here().Depths().InTry(s.scope), placements)
      requires ScopesInSeq(s.body) <= walk.scopes && s.scope !in ScopesInSeq(s.body)
      modifies this
      ensures Context() == old(Context())
      ensures Holding(walk, Now(), []) && NewKeys(walk.start, Now(), ScopesInSeq(s.body))
      ensures Protected(walk, Now(), s, e, flow)
      decreases s, 3
    {
      hide WorldOk, TransfersOk, EdgeOk, AfterSeq, SimulatesSeq, Predicted, DistinctSeq, PlacedSeq, Extends;
      hide Reserved, Feeds, TextOf;
      hide ScopesInSeq, EnvAt, CompletesSeq, OutsSeq, ActiveOk, FreshFor, Follows, Apart, ScopesPlaced, Holding;
      hide ThroughFinally, Protected;
      if s.body == [] {
        flow := Flow(Some(cur), []);
        EmptyProtected(walk, s, e, future);
        NoNewKeys(walk.start, Now());
        return;
      }
      hide NewKeys;
      var b := EnterTry(cur, s.body, e, ThroughFinally(s.scope, s.cleanup, e, walk.k), future, Some(s.scope), walk);
      flow := WalkProtected(s, cur, b, future, e, walk);
    }

    method WalkProtected(
      s: Stmt, cur: BlockId, b: BlockId, ghost future: Future, ghost e: Env, ghost walk: Walk)
      returns (flow: Flow)
      requires s.TryFinally? && walk == Walk(Fixed(), walk.start, cur, walk.scopes, activeKeys, Here(), walk.k)
      requires CanWalk(walk, activeReturn, future) && Holding(walk, Now(), []) && e == EnvAt(walk.program, walk.site)
      requires finalizerCache == walk.start.cache
      requires Reserved(walk, Now(), b, Note(AfterSeq(s.body, e, ThroughFinally(s.scope, s.cleanup, e, walk.k)),
                                             walk.site.scopes + [s.scope], Plain))
      requires graph.Links(cur, [], b) && cur in closed && Now().Has(cur)
      requires graph.Content(cur) == walk.start.graph.Content(cur)
      requires s.scope in placements.cleanups && placements.cleanups[s.scope] == Placement(s.cleanup, Here().Depths())
      requires DistinctSeq(s.body) && PlacedSeq(s.body, Here().Depths().InTry(s.scope), placements)
      requires ScopesInSeq(s.body) <= walk.scopes && s.scope !in ScopesInSeq(s.body)
      modifies this
      ensures Context() == old(Context())
      ensures Holding(walk, Now(), []) && NewKeys(walk.start, Now(), ScopesInSeq(s.body))
      ensures Protected(walk, Now(), s, e, flow)
      decreases s, 2
    {
      hide CanWalk, Holding, AfterSeq, DistinctSeq, PlacedSeq, ScopesInSeq, SimulatesSeq, Predicted;
      hide CompletesSeq, OutsSeq, TextOf;
      hide EnvAt, Protected, NewKeys, Finished, ThroughFinally;
      ghost var w0 := Now();
      ghost var k' := ThroughFinally(s.scope, s.cleanup, e, walk.k);
      ghost var note := Note(AfterSeq(s.body, e, k'), walk.site.scopes + [s.scope], Plain);
      TryCanWalk(walk, activeReturn, future, w0, b, s, e);
      cleanupScopes := cleanupScopes + [s.scope];
      implicitDepth := implicitDepth + 1;
      ghost var inner := walk.(start := w0, cur := b, scopes := ScopesInSeq(s.body), site := Here(), k := k');
      assert inner == Begin(b, ScopesInSeq(s.body), k');
      flow := WalkSeq(s.body, b, k');
      implicitDepth := implicitDepth - 1;
      cleanupScopes := cleanupScopes[..|cleanupScopes| - 1];
      ProtectedDone(walk, w0, Now(), inner, b, note, s, e, flow);
    }

    /** The identity of a finalizer's normal return, equal for equal return keys. */
    method InternReturn(r: ReturnKey, ghost walk: Walk, ghost ts: seq<Transfer>) returns (id: nat)
      requires Holding(walk, Now(), ts)
      modifies `returnIds, `nextReturn
      ensures Holding(walk, Now(), ts) && Extends(old(Now()), Now(), {})
      ensures r in returnIds && returnIds[r] == id
    {
      hide Holding, Extends, TextOf;
      if r in returnIds {
        id := returnIds[r];
        ExtendsRefl(Now());
        return;
      }
      ReturnStep(walk, Now(), ts, r);
      id := nextReturn;
      nextReturn := nextReturn + 1;
      returnIds := returnIds[r := id];
    }

    /** Walk a finalizer body for the first time and record it. */
    method WalkFinalizer(
      cleanup: seq<Stmt>, key: CacheKey, id: nat, pending: Option<ContinuationKey>, ghost r: ReturnKey, ghost e: Env,
      ghost future: Future, ghost walk: Walk, ghost ts: seq<Transfer>)
      returns (c: CachedBody)
      requires walk == Walk(Fixed(), walk.start, walk.cur, walk.scopes, activeKeys, Here(), walk.k)
      requires CanWalk(walk, activeReturn, future) && Holding(walk, Now(), ts) && e == EnvAt(walk.program, walk.site)
      requires key == BodyKey(key.scope, key.continuation, activeReturn, Here()) && key !in finalizerCache
      requires r in returnIds && returnIds[r] == id && KeyMatches(key, r)
      requires key.scope in placements.cleanups && placements.cleanups[key.scope] == Placement(cleanup, Here().Depths())
      requires DistinctSeq(cleanup) && PlacedSeq(cleanup, Here().Depths().InCleanup(), placements)
      requires key.scope in walk.scopes && ScopesInSeq(cleanup) <= walk.scopes && key.scope !in ScopesInSeq(cleanup)
      modifies this
      ensures Context() == old(Context()) && Holding(walk, Now(), ts) && Extends(old(Now()), Now(), {})
      ensures Finalizes(walk, Now(), key.scope, cleanup, e, Suspends(key.continuation), c)
      ensures NewBodies(old(finalizerCache), finalizerCache, key, ScopesInSeq(cleanup))
      decreases cleanup, 2
    {
      hide CanWalk, Holding, AfterSeq, DistinctSeq, PlacedSeq, ScopesInSeq, SimulatesSeq, Predicted;
      hide CompletesSeq, OutsSeq, TextOf;
      hide EnvAt, Extends, NewKeys, Finished, KeyMatches, AtPlacement, Resume, Finalizes, NewBodies, GraphOk;
      hide CleanupSite, Finalized;
      ghost var w00 := Now();
      ghost var o := Suspends(key.continuation);
      var b := ReserveFinalizer(key, cleanup, e, walk, ts);
      ghost var w0 := Now();
      PlacedHere(walk.program, key, cleanup);
      HoldingGraph(walk, w0, ts);
      FinalizerCanWalk(walk, activeReturn, future, w0, ts, b, key, r, cleanup, e, o);
      FinalizerContent(walk, w0, b, key.scope, o, cleanup, e);
      var flow := WalkCleanup(cleanup, b, id, pending, key, o, walk);
      c := CachedBody(b, flow);
      RecordFinalizer(cleanup, key, b, flow, e, future, walk, ts, w00, w0);
    }

    /** Walk a cleanup in the context of its finalizer. */
    method WalkCleanup(
      cleanup: seq<Stmt>, b: BlockId, id: nat, pending: Option<ContinuationKey>, ghost key: CacheKey,
      ghost o: Outcome, ghost walk: Walk)
      returns (flow: Flow)
      requires walk == Walk(Fixed(), walk.start, walk.cur, walk.scopes, activeKeys, Here(), walk.k)
      requires DistinctSeq(cleanup) && PlacedSeq(cleanup, CleanupSite(Here()).Depths(), placements)
      requires CanWalk(FinalizerWalk(walk, Now(), b, key, cleanup, o), Some(id),
                       AfterSeq(cleanup, EnvAt(walk.program, CleanupSite(walk.site)), Resume(walk.k, o)))
      modifies this
      ensures Context() == old(Context())
      ensures Finished(FinalizerWalk(walk, old(Now()), b, key, cleanup, o), Now(), flow)
      ensures SimulatesSeq(graph, cleanup, EnvAt(walk.program, CleanupSite(walk.site)), b, old(graph.Content(b)), flow)
      ensures Predicted(flow, CompletesSeq(cleanup), OutsSeq(cleanup, EnvAt(walk.program, CleanupSite(walk.site))))
      decreases cleanup, 1
    {
      hide CanWalk, AfterSeq, DistinctSeq, PlacedSeq, ScopesInSeq, SimulatesSeq, Predicted, CompletesSeq;
      hide OutsSeq, EnvAt, Finished, Resume, TextOf;
      var active, suspends := activeReturn, suspended;
      ghost var w0 := Now();
      EnterFinalizer(id, pending, key);
      assert FinalizerWalk(walk, w0, b, key, cleanup, o) == Begin(b, ScopesInSeq(cleanup), Resume(walk.k, o));
      flow := WalkSeq(cleanup, b, Resume(walk.k, o));
      LeaveFinalizer(active, suspends, walk.keys, walk.site);
    }

    /** The context of a finalizer body: its return identity, what it suspends, one more exception level. */
    method EnterFinalizer(id: nat, pending: Option<ContinuationKey>, ghost key: CacheKey)
      modifies `activeReturn, `suspended, `activeKeys, `implicitDepth
      ensures Now() == old(Now()) && Here() == CleanupSite(old(Here()))
      ensures activeReturn == Some(id) && suspended == pending && activeKeys == old(activeKeys) + {key}
    {
      hide TextOf;
      activeReturn, suspended, implicitDepth := Some(id), pending, implicitDepth + 1;
      activeKeys := activeKeys + {key};
    }

    method LeaveFinalizer(
      active: Option<nat>, suspends: Option<ContinuationKey>, ghost keys: set<CacheKey>, ghost site: Site)
      requires Here() == CleanupSite(site)
      modifies `activeReturn, `suspended, `activeKeys, `implicitDepth
      ensures Now() == old(Now()) && Here() == site
      ensures activeReturn == active && suspended == suspends && activeKeys == keys
    {
      hide TextOf;
      activeReturn, suspended, implicitDepth := active, suspends, implicitDepth - 1;
      activeKeys := keys;
    }

    method ReserveFinalizer(
      key: CacheKey, ghost cleanup: seq<Stmt>, ghost e: Env, ghost walk: Walk, ghost ts: seq<Transfer>)
      returns (b: BlockId)
      requires Holding(walk, Now(), ts)
      modifies `graph, `notes
      ensures Holding(walk, Now(), ts) && Extends(old(Now()), Now(), {}) && b == |old(notes)|
      ensures FinalizerBlock(walk, Now(), b, key.scope, Suspends(key.continuation), cleanup, e)
    {
      hide CacheOk, BasesOk, ReturnsOk, OriginsOk, Labelled, TransfersOk, EdgeOk, Finalized, TextOf;
      var o := Suspends(key.continuation);
      b := NewBlock(FinallyHandler(key.scope, o),
                    Note(Finalized(key.scope, o, cleanup, e, walk.k), walk.site.scopes, FinallyHandler(key.scope, o)),
                    walk, ts);
    }

    /** Close the end of a new finalizer body and record the body under its key. */
    method RecordFinalizer(
      ghost cleanup: seq<Stmt>, key: CacheKey, b: BlockId, flow: Flow, ghost e: Env, ghost future: Future,
      ghost walk: Walk, ghost ts: seq<Transfer>, ghost w00: World, ghost w0: World)
      requires walk == Walk(Fixed(), walk.start, walk.cur, walk.scopes, activeKeys, Here(), walk.k)
      requires CanWalk(walk, activeReturn, future) && Holding(walk, w00, ts) && e == EnvAt(walk.program, walk.site)
      requires Extends(w00, w0, {}) && b == |w00.notes| && w0.cache == w00.cache && GraphOk(w0)
      requires key == BodyKey(key.scope, key.continuation, activeReturn, Here()) && key !in w0.cache
      requires key.scope in placements.cleanups && placements.cleanups[key.scope].cleanup == cleanup
      requires key.scope in walk.scopes && ScopesInSeq(cleanup) <= walk.scopes && key.scope !in ScopesInSeq(cleanup)
      requires FinalizerBlock(walk, w0, b, key.scope, Suspends(key.continuation), cleanup, e)
      requires Finished(FinalizerWalk(walk, w0, b, key, cleanup, Suspends(key.continuation)), Now(), flow)
      requires SimulatesSeq(graph, cleanup, e, b, [Cleanup(key.scope, Suspends(key.continuation))], flow)
      requires Predicted(flow, CompletesSeq(cleanup), OutsSeq(cleanup, e))
      modifies `finalizerCache, `origin, `closed
      ensures Holding(walk, Now(), ts) && Extends(w00, Now(), {})
      ensures Finalizes(walk, Now(), key.scope, cleanup, e, Suspends(key.continuation), CachedBody(b, flow))
      ensures NewBodies(w00.cache, finalizerCache, key, ScopesInSeq(cleanup))
    {
      hide CanWalk, Holding, AfterSeq, ScopesInSeq, SimulatesSeq, Predicted, CompletesSeq, OutsSeq, EnvAt;
      hide Extends, Resume, Finalizes, TextOf;
      hide ReturnsInto, CachedOk, GraphOk, Finalized;
      ghost var o := Suspends(key.continuation);
      ghost var inner := FinalizerWalk(walk, w0, b, key, cleanup, o);
      ghost var w1 := Now();
      FinishedEnd(inner, w1, flow);
      if flow.normal.Some? {
        CloseStep(inner, w1, flow.transfers, flow.normal.value);
        closed := closed + {flow.normal.value};
      }
      ghost var w2 := Now();
      WalkedFinalizes(walk, w0, b, key, cleanup, e, o, w1, w2, flow);
      FinalizerFacts(walk, activeReturn, future, w00, ts, w0, inner, w2, flow.transfers, key, cleanup, e,
                     CachedBody(b, flow));
      ghost var from := Caller(walk.program, w2, walk.keys, key);
      MemoiseStep(walk, w00, ts, w0, b, key, cleanup, o, w2, flow.transfers, CachedBody(b, flow), from);
      Memoise(key, CachedBody(b, flow), from);
      HoldingGraph(walk, Now(), ts);
      HoldingGraph(inner, w2, flow.transfers);
      FinalizesKept(walk, w2, Now(), {}, key.scope, cleanup, e, o, CachedBody(b, flow));
    }

    method Memoise(key: CacheKey, c: CachedBody, ghost from: Option<CacheKey>)
      modifies `finalizerCache, `origin
      ensures Now() == Memoised(old(Now()), key, c, from)
    {
      hide TextOf;
      finalizerCache := finalizerCache[key := c];
      if from.Some? {
        origin := origin[key := from.value];
      }
    }

    /** The finalizer body for a continuation: reused from an equal context, or walked now. */
    method WalkOrReuse(
      f: ScopeId, cleanup: seq<Stmt>, continuation: Option<ContinuationKey>, ghost e: Env,
      ghost future: Future, ghost walk: Walk, ghost ts: seq<Transfer>)
      returns (c: CachedBody)
      requires walk == Walk(Fixed(), walk.start, walk.cur, walk.scopes, activeKeys, Here(), walk.k)
      requires CanWalk(walk, activeReturn, future) && Holding(walk, Now(), ts) && e == EnvAt(walk.program, walk.site)
      requires continuation.None? ==> BodyKey(f, continuation, activeReturn, Here()) !in finalizerCache
      requires f in placements.cleanups && placements.cleanups[f] == Placement(cleanup, Here().Depths())
      requires DistinctSeq(cleanup) && PlacedSeq(cleanup, Here().Depths().InCleanup(), placements)
      requires f in walk.scopes && ScopesInSeq(cleanup) <= walk.scopes && f !in ScopesInSeq(cleanup)
      modifies this
      ensures Context() == old(Context()) && Holding(walk, Now(), ts) && Extends(old(Now()), Now(), {})
      ensures Finalizes(walk, Now(), f, cleanup, e, Suspends(continuation), c)
      ensures NewBodies(old(finalizerCache), finalizerCache, old(BodyKey(f, continuation, activeReturn, Here())),
                        ScopesInSeq(cleanup))
      decreases cleanup, 3
    {
      hide CanWalk, Holding, AfterSeq, DistinctSeq, PlacedSeq, ScopesInSeq, EnvAt, Extends, Finalizes;
      hide NewBodies, GraphOk, TextOf;
      var key := BodyKey(f, continuation, activeReturn, Here());
      var pending := if continuation.Some? then continuation else suspended;
      var r := ReturnKey(f, continuation, pending, activeReturn, handledStack);
      ghost var w0 := Now();
      var id := InternReturn(r, walk, ts);
      ghost var w1 := Now();
      HoldingGraph(walk, w0, ts);
      HoldingGraph(walk, w1, ts);
      if key in finalizerCache {
        c := finalizerCache[key];
        HitFinalizes(walk, activeReturn, future, w1, ts, f, cleanup, e, key);
        SameBodies(w0.cache, key, ScopesInSeq(cleanup));
        return;
      }
      c := WalkFinalizer(cleanup, key, id, pending, r, e, future, walk, ts);
      HoldingGraph(walk, Now(), ts);
      ExtendsTrans(w0, w1, Now(), {}, {}, {});
    }

    /** Edges from the inputs of one group to its finalizer. */
    method LinkInputs(
      inputs: seq<Input>, c: CachedBody, ghost fz: Finalizing, ghost o: Outcome, ghost ts: seq<Transfer>)
      requires fz.stmt.TryFinally? && Holding(fz.walk, Now(), ts) && Protected(fz.walk, Now(), fz.stmt, fz.env, fz.body)
      requires Finalizes(fz.walk, Now(), fz.stmt.scope, fz.stmt.cleanup, fz.env, o, c)
      requires forall x :: x in inputs ==> x in Inputs(fz.body) && Suspends(InputKey(x)) == o
      modifies `graph, `closed
      ensures Holding(fz.walk, Now(), ts) && Protected(fz.walk, Now(), fz.stmt, fz.env, fz.body)
      ensures Finalizes(fz.walk, Now(), fz.stmt.scope, fz.stmt.cleanup, fz.env, o, c)
      ensures forall x :: x in inputs ==> graph.Links(InputSource(x), Mark(EntryKind(o)), c.entry)
      ensures Extends(old(Now()), Now(), fz.BodyEnd() - old(closed)) && Grown(old(graph), graph, {})
    {
      hide Holding, Protected, Finalizes, Extends, Grown, Inputs, GraphOk, Suspends, TextOf, Mark;
      ghost var w0 := Now();
      HoldingGraph(fz.walk, w0, ts);
      GrownSelf(graph);
      LinkStart(w0, fz.BodyEnd());
      var i := 0;
      while i < |inputs|
        invariant 0 <= i <= |inputs| && Holding(fz.walk, Now(), ts)
        invariant Protected(fz.walk, Now(), fz.stmt, fz.env, fz.body)
        invariant Finalizes(fz.walk, Now(), fz.stmt.scope, fz.stmt.cleanup, fz.env, o, c)
        invariant forall m :: 0 <= m < i ==> graph.Links(InputSource(inputs[m]), Mark(EntryKind(o)), c.entry)
        invariant Extends(w0, Now(), fz.BodyEnd() - w0.closed) && Grown(w0.graph, graph, {})
      {
        ghost var w1 := Now();
        var x := inputs[i];
        assert x in inputs;
        LinkInput(x, c, fz, o, ts, w0);
        forall m | 0 <= m < i ensures graph.Links(InputSource(inputs[m]), Mark(EntryKind(o)), c.entry) {
          EdgeGrown(w1.graph, graph, {}, InputSource(inputs[m]), Mark(EntryKind(o)), c.entry);
        }
        i := i + 1;
      }
      assert forall x :: x in inputs ==> exists m :: 0 <= m < |inputs| && inputs[m] == x;
    }

    method LinkInput(
      x: Input, c: CachedBody, ghost fz: Finalizing, ghost o: Outcome, ghost ts: seq<Transfer>, ghost w0: World)
      requires fz.stmt.TryFinally? && Holding(fz.walk, Now(), ts) && Protected(fz.walk, Now(), fz.stmt, fz.env, fz.body)
      requires Finalizes(fz.walk, Now(), fz.stmt.scope, fz.stmt.cleanup, fz.env, o, c)
      requires x in Inputs(fz.body) && Suspends(InputKey(x)) == o
      requires Extends(w0, Now(), fz.BodyEnd() - w0.closed) && Grown(w0.graph, graph, {}) && GraphOk(w0)
      modifies `graph, `closed
      ensures Holding(fz.walk, Now(), ts) && Protected(fz.walk, Now(), fz.stmt, fz.env, fz.body)
      ensures Finalizes(fz.walk, Now(), fz.stmt.scope, fz.stmt.cleanup, fz.env, o, c)
      ensures graph.Links(InputSource(x), Mark(EntryKind(o)), c.entry) && Grown(old(graph), graph, {})
      ensures Extends(w0, Now(), fz.BodyEnd() - w0.closed) && Grown(w0.graph, graph, {})
    {
      hide CacheOk, BasesOk, ReturnsOk, OriginsOk, Labelled, TransfersOk, EdgeOk, Protected, Finalizes, Inputs;
      hide Feeds, ScopeStep, TextOf, Mark;
      ghost var w1 := Now();
      InputEdge(fz.walk, w1, fz.stmt, fz.env, fz.body, x, c);
      InputsOf(fz.body, x);
      var kind := if x.FromTransfer? && x.transfer.kind.ToException? then ExceptionThrow else FinallyEntry;
      assert kind == EntryKind(o);
      AddEdge(InputSource(x), c.entry, kind, fz.walk, ts);
      ghost var touched := {InputSource(x)} - w1.closed;
      assert touched <= fz.BodyEnd();
      assert Grown(w1.graph, graph, {});
      hide Extends, Grown, GraphOk, Holding;
      HoldingGraph(fz.walk, w1, ts);
      HoldingGraph(fz.walk, Now(), ts);
      ProtectedGrown(fz.walk, w1, Now(), touched, fz.stmt, fz.env, fz.body);
      FinalizesKept(fz.walk, w1, Now(), touched, fz.stmt.scope, fz.stmt.cleanup, fz.env, o, c);
      GrownTrans(w0.graph, w1.graph, graph);
      LinkMore(w0, w1, Now(), fz.BodyEnd(), touched);
    }

    /** The block after the statement, reached when the finalizer of the normal group ends. */
    method ResumeNormally(c: CachedBody, ghost fz: Finalizing, ghost ts: seq<Transfer>) returns (after: BlockId)
      requires fz.stmt.TryFinally? && Holding(fz.walk, Now(), ts) && Protected(fz.walk, Now(), fz.stmt, fz.env, fz.body)
      requires Finalizes(fz.walk, Now(), fz.stmt.scope, fz.stmt.cleanup, fz.env, Normal, c) && c.flow.normal.Some?
      modifies `graph, `notes, `closed
      ensures Holding(fz.walk, Now(), ts) && Extends(old(Now()), Now(), {}) && Grown(old(graph), graph, {})
      ensures Reserved(fz.walk, Now(), after, Note(fz.walk.k(Normal), fz.walk.site.scopes, Plain))
      ensures graph.Links(c.flow.normal.value, [], after) && Some(after) != fz.body.normal
    {
      hide CacheOk, BasesOk, ReturnsOk, OriginsOk, Labelled, TransfersOk, EdgeOk, SimulatesSeq, Predicted;
      hide AfterSeq, Feeds, TextOf;
      ghost var w0 := Now();
      after := NewBlock(Plain, Note(fz.walk.k(Normal), fz.walk.site.scopes, Plain), fz.walk, ts);
      ghost var w1 := Now();
      ContentKept(w0, w1, {}, c.flow.normal.value);
      assert graph.Content(c.flow.normal.value) + Mark(FinallyExit) == graph.Content(c.flow.normal.value);
      AddClosedEdge(c.flow.normal.value, after, FinallyExit, fz.walk, ts);
      ReservedKept(fz.walk, w1, Now(), {}, after, Note(fz.walk.k(Normal), fz.walk.site.scopes, Plain));
      ExtendsTrans(w0, w1, Now(), {}, {}, {});
      GrownTrans(w0.graph, w1.graph, graph);
    }

    /** One group: its finalizer, the edges into it and what goes on after it. */
    method FinishGroup(
      s: Stmt, group: Group, out: Flow, ghost fz: Finalizing, ghost future: Future, ghost bodies: seq<CachedBody>)
      returns (next: Flow, ghost c: CachedBody)
      requires s.TryFinally? && fz.stmt == s && fz.Ok(Now(), bodies, out) && |bodies| < |fz.groups|
      requires group == fz.groups[|bodies|]
      requires fz.walk == Walk(Fixed(), fz.walk.start, fz.walk.cur, fz.walk.scopes, activeKeys, Here(), fz.walk.k)
      requires fz.env == EnvAt(fz.walk.program, fz.walk.site) && CanWalk(fz.walk, activeReturn, future)
      requires s.scope in placements.cleanups && placements.cleanups[s.scope] == Placement(s.cleanup, Here().Depths())
      requires DistinctSeq(s.cleanup) && PlacedSeq(s.cleanup, Here().Depths().InCleanup(), placements)
      requires s.scope in fz.walk.scopes && ScopesInSeq(s.cleanup) <= fz.walk.scopes && s.scope !in fz.InnerScopes()
      modifies this
      ensures Context() == old(Context()) && fz.Ok(Now(), bodies + [c], next)
      decreases s, 2
    {
      hide CanWalk, Holding, Protected, Grouped, AllReturned, Resumed, RecordedSince, Finalizes, NewBodies;
      hide Reserved, EnvAt, TextOf;
      hide Extends, Grown, GraphOk, DistinctSeq, PlacedSeq, ScopesInSeq, Resumption, Marked, Inputs;
      ghost var w0 := Now();
      FinalizingGroup(fz, w0, bodies, out);
      GroupMisses(fz, w0, bodies, out, activeReturn, future);
      ghost var key := BodyKey(s.scope, group.key, activeReturn, Here());
      var body := WalkOrReuse(s.scope, s.cleanup, group.key, fz.env, future, fz.walk, out.transfers);
      ghost var w1 := Now();
      StillProtected(fz, w0, bodies, out, w1);
      LinkInputs(group.inputs, body, fz, Suspends(group.key), out.transfers);
      ghost var w2 := Now();
      var after := None;
      if group.key.None? && body.flow.normal.Some? {
        var b := ResumeNormally(body, fz, out.transfers);
        after := Some(b);
      } else {
        ExtendsRefl(w2);
        GrownSelf(graph);
      }
      next := GroupOutput(out, group, body.flow, after);
      c := body;
      GroupEnds(fz, w0, w1, w2, Now(), bodies, out, body, after, key);
    }

    method WalkTryFinally(s: Stmt, cur: BlockId, ghost k: Kont) returns (flow: Flow)
      requires s.TryFinally? && Distinct(s) && Placed(s, Here().Depths(), placements)
      requires CanWalk(Begin(cur, ScopesIn(s), k), activeReturn, After(s, Around(), k))
      modifies this
      ensures Context() == old(Context())
      ensures Finished(old(Begin(cur, ScopesIn(s), k)), Now(), flow)
      ensures Simulates(graph, s, old(Around()), cur, old(graph.Content(cur)), flow)
      ensures Predicted(flow, Completes(s), Outs(s, old(Around())))
      decreases s, 4
    {
      hide CanWalk, Holding, Finished, Simulates, After, AfterSeq, EnvAt, Protected, Grouped, AllReturned;
      hide Resumed, RecordedSince, TextOf;
      hide Distinct, DistinctSeq, Placed, PlacedSeq, ScopesIn, ScopesInSeq, Completes, Outs, OutsSeq, Predicted;
      hide NewKeys, Inputs, Dedup, Passing;
      ghost var walk := Begin(cur, ScopesIn(s), k);
      ghost var e := Around();
      ghost var future := After(s, e, k);
      Begins(walk, activeReturn, future);
      TryFinallyParts(s, Here().Depths(), placements);
      TryFinallyFeeds(s, e, k);
      var tflow := WalkProtectedBody(s, cur, future, e, walk);
      var once := DedupTransfers(tflow.transfers);
      var body := Flow(tflow.normal, once);
      ProtectedDedup(walk, Now(), s, e, tflow);
      var passing, groups := GroupInputs(Inputs(body), s.scope);
      AllLeave(walk, activeReturn, future, Now(), s, e, body);
      ghost var fz := Finalizing(walk, s, e, body, groups);
      FinalizingStart(fz, Now());
      var out := FinishGroups(s, groups, passing, fz, future);
      once := DedupTransfers(out.transfers);
      flow := Flow(out.normal, once);
    }

    method FinishGroups(s: Stmt, groups: seq<Group>, passing: seq<Transfer>, ghost fz: Finalizing, ghost future: Future)
      returns (out: Flow)
      requires s.TryFinally? && fz.stmt == s && fz.groups == groups && fz.Ok(Now(), [], Flow(None, passing)) 
      requires passing == Passing(Inputs(fz.body), s.scope) == []
      requires fz.walk == Walk(Fixed(), fz.walk.start, fz.walk.cur, fz.walk.scopes, activeKeys, Here(), fz.walk.k)
      requires fz.env == EnvAt(fz.walk.program, fz.walk.site) && CanWalk(fz.walk, activeReturn, future)
      requires s.scope in placements.cleanups && placements.cleanups[s.scope] == Placement(s.cleanup, Here().Depths())
      requires DistinctSeq(s.cleanup) && PlacedSeq(s.cleanup, Here().Depths().InCleanup(), placements)
      requires s.scope in fz.walk.scopes && ScopesInSeq(s.cleanup) <= fz.walk.scopes && s.scope !in fz.InnerScopes()
      modifies this
      ensures Context() == old(Context())
      ensures Finished(fz.walk, Now(), Flow(out.normal, Dedup(out.transfers)))
      ensures Simulates(graph, s, fz.env, fz.walk.cur, fz.walk.start.graph.Content(fz.walk.cur),
                        Flow(out.normal, Dedup(out.transfers)))
      ensures Predicted(Flow(out.normal, Dedup(out.transfers)), Completes(s), Outs(s, fz.env))
      decreases s, 3
    {
      hide CanWalk, Holding, Finished, Simulates, EnvAt, Protected, Grouped, AllReturned, Resumed;
      hide RecordedSince, Reserved, TextOf;
      hide DistinctSeq, PlacedSeq, ScopesInSeq, Completes, Outs, Predicted, Inputs, Dedup, Passing;
      out := Flow(None, passing);
      ghost var bodies := [];
      var i := 0;
      while i < |groups|
        invariant 0 <= i <= |groups| && |bodies| == i && Context() == old(Context()) && fz.Ok(Now(), bodies, out)
      {
        ghost var c;
        out, c := FinishGroup(s, groups[i], out, fz, future, bodies);
        bodies := bodies + [c];
        i := i + 1;
      }
      TryFinallyEnds(fz, Now(), bodies, out);
    }

    // ---- Sequences and dispatch

    method WalkBlock(s: Stmt, cur: BlockId, ghost k: Kont) returns (flow: Flow)
      requires s.Block? && Distinct(s) && Placed(s, Here().Depths(), placements)
      requires CanWalk(Begin(cur, ScopesIn(s), k), activeReturn, After(s, Around(), k))
      modifies this
      ensures Context() == old(Context())
      ensures Finished(old(Begin(cur, ScopesIn(s), k)), Now(), flow)
      ensures Simulates(graph, s, old(Around()), cur, old(graph.Content(cur)), flow)
      ensures Predicted(flow, Completes(s), Outs(s, old(Around())))
      decreases s, 4
    {
      hide CanWalk, Finished, Simulates, SimulatesSeq, Predicted, EnvAt, TextOf;
      ghost var e := Around();
      ghost var g := graph;
      BlockIsSequence(s, e, k);
      hide After, AfterSeq, Distinct, DistinctSeq, Placed, PlacedSeq, ScopesIn, ScopesInSeq, Completes;
      hide CompletesSeq, Outs, OutsSeq;
      BodyParts(s, s.body, Here().Depths(), placements);
      flow := WalkSeq(s.body, cur, k);
      BlockSimulates(graph, s, e, cur, g.Content(cur), flow);
    }


    method WalkSeq(ss: seq<Stmt>, cur: BlockId, ghost k: Kont) returns (flow: Flow)
      requires DistinctSeq(ss) && PlacedSeq(ss, Here().Depths(), placements)
      requires CanWalk(Begin(cur, ScopesInSeq(ss), k), activeReturn, AfterSeq(ss, Around(), k))
      modifies this
      ensures Context() == old(Context())
      ensures Finished(old(Begin(cur, ScopesInSeq(ss), k)), Now(), flow)
      ensures SimulatesSeq(graph, ss, old(Around()), cur, old(graph.Content(cur)), flow)
      ensures Predicted(flow, CompletesSeq(ss), OutsSeq(ss, old(Around())))
      decreases ss, 0
    {
      hide CanWalk, Holding, Finished, Simulates, SimulatesSeq, Predicted, After, AfterSeq, Completes;
      hide CompletesSeq, TextOf;
      hide Outs, OutsSeq, EndOk, ScopesIn, ScopesInSeq, EnvAt, NewKeys, DistinctSeq, PlacedSeq, Distinct;
      hide Placed, Extends;
      ghost var walk := Begin(cur, ScopesInSeq(ss), k);
      ghost var e := Around();
      SeqStart(walk, activeReturn, ss, e);
      var current, transfers, i := Some(cur), [], 0;
      while i < |ss|
        invariant 0 <= i <= |ss| && Context() == old(Context())
        invariant SeqInv(walk, Now(), ss, e, i, current, transfers)
      {
        var c;
        if current.None? {
          SeqUnreachable(walk, Now(), ss, e, i, transfers);
          c := NewBlock(Plain, Note(AfterSeq(ss[i..], e, k), walk.site.scopes, Plain), walk, transfers);
        } else {
          c := current.value;
        }
        ghost var before := Now();
        SeqNext(walk, before, ss, e, i, c, transfers, activeReturn);
        var next := WalkStmt(ss[i], c, StatementWalk(walk, before, ss, e, i, c).k);
        SeqStep(walk, before, Now(), ss, e, i, current, c, transfers, next);
        current, transfers := next.normal, transfers + next.transfers;
        i := i + 1;
      }
      SeqDone(walk, Now(), ss, e, current, transfers);
      flow := Flow(current, transfers);
    }

    method WalkStmt(s: Stmt, cur: BlockId, ghost k: Kont) returns (flow: Flow)
      requires Distinct(s) && Placed(s, Here().Depths(), placements)
      requires CanWalk(Begin(cur, ScopesIn(s), k), activeReturn, After(s, Around(), k))
      modifies this
      ensures Context() == old(Context())
      ensures Finished(old(Begin(cur, ScopesIn(s), k)), Now(), flow)
      ensures Simulates(graph, s, old(Around()), cur, old(graph.Content(cur)), flow)
      ensures Predicted(flow, Completes(s), Outs(s, old(Around())))
      decreases s, 5
    {
      hide CanWalk, Finished, Simulates, Predicted, After, Completes, Outs, ScopesIn, EnvAt, Distinct, Placed, TextOf;
      match s
      case Block(_) => flow := WalkBlock(s, cur, k);
      case IfElse(_, _, _) => flow := WalkIfElse(s, cur, k);
      case IfOnly(_, _) => flow := WalkIfOnly(s, cur, k);
      case Loop(_, _) => flow := WalkLoop(s, cur, k);
      case Repeat(_, _, _) => flow := WalkRepeat(s, cur, k);
      case Case(_, _, _) => flow := WalkCase(s, cur, k);
      case With(_, _) => flow := WalkWith(s, cur, k);
      case TryFinally(_, _, _) => flow := WalkTryFinally(s, cur, k);
      case TryExcept(_, _) => flow := WalkTryExcept(s, cur, k);
      case Raise(_, _, _, true) => flow := WalkEvaluatedRaise(s, cur, k);
      case _ => flow := WalkLeaf(s, cur, k);
    }

    // ---- The routine boundary

    /** Walk a whole routine. */
    method WalkRoutine(body: seq<Stmt>)
      requires DistinctSeq(body) && placements == RoutineProgram(index, body).placements
      requires Now() == StartWorld(index, body) && Here() == StartSite() && activeReturn == None && activeKeys == {}
      modifies this
      ensures GraphOk(Now()) && Labelled(Fixed(), Now()) && ExitKept(Now())
      ensures graph.blocks[ENTRY].kind == Entry && graph.blocks[EXIT].kind == ExitBlock
      ensures RunsHavePaths(graph, index, body) && PathsHaveRuns(graph, index, body)
    {
      hide CanWalk, Finished, Holding, AfterSeq, DistinctSeq, PlacedSeq, SimulatesSeq, Predicted, CompletesSeq;
      hide OutsSeq, EnvAt, ScopesInSeq, TextOf;
      hide StartWorld, RoutineFuture, AtBoundary, GraphOk, RunsHavePaths, PathsHaveRuns, AllRouted, CollectSeq;
      ghost var walk := StartWalk(index, body);
      StartPlaced(index, body);
      StartCanWalk(index, body);
      StartEmpty(index, body);
      assert walk == Begin(BODY, ScopesInSeq(body), AtBoundary());
      BoundaryFuture(index, body);
      var flow := WalkSeq(body, BODY, AtBoundary());
      FinishFlow(flow, body, walk);
      ExitStays(index, body, Now(), []);
      RoutedRuns(graph, index, body, flow);
      HoldingGraph(walk, Now(), []);
      HoldingLabels(walk, Now(), []);
      AllowedRuns(Now(), index, body);
    }

    /** Edges to the exit block for everything that is still pending. */
    method FinishFlow(flow: Flow, ghost body: seq<Stmt>, ghost walk: Walk)
      requires walk == StartWalk(index, body) && Finished(walk, Now(), flow)
      requires SimulatesSeq(graph, body, StartEnv(index), BODY, [], flow)
      modifies `graph, `closed
      ensures Holding(walk, Now(), []) && AllRouted(graph, flow)
      ensures SimulatesSeq(graph, body, StartEnv(index), BODY, [], flow)
    {
      hide AfterSeq, SimulatesSeq, CollectSeq, ScopesInSeq, StartWorld, Finished, Holding, Grown, TextOf;
      ghost var w0 := Now();
      FinishNormal(flow, body, walk);
      ghost var w1 := Now();
      var i := 0;
      GrownSelf(graph);
      while i < |flow.transfers|
        invariant 0 <= i <= |flow.transfers| && Holding(walk, Now(), flow.transfers) && Grown(w1.graph, graph, {})
        invariant forall m :: 0 <= m < i ==> Leads(graph, flow.transfers[m])
      {
        ghost var before := graph;
        RouteTransfer(flow.transfers[i], flow.transfers, body, walk);
        forall m | 0 <= m < i ensures Leads(graph, flow.transfers[m]) {
          EdgeGrown(before, graph, {}, flow.transfers[m].source, LeaveMark(TransferOutcome(flow.transfers[m])), EXIT);
        }
        GrownTrans(w1.graph, before, graph);
        i := i + 1;
      }
      if flow.normal.Some? {
        EdgeGrown(w1.graph, graph, {}, flow.normal.value, [], EXIT);
      }
      assert forall t :: t in flow.transfers ==> exists m :: 0 <= m < |flow.transfers| && flow.transfers[m] == t;
      SimulatesSeqGrown(w0.graph, w1.graph, body, StartEnv(index), BODY, [], flow);
      SimulatesSeqGrown(w1.graph, graph, body, StartEnv(index), BODY, [], flow);
      HoldingNone(walk, Now(), flow.transfers);
    }

    method FinishNormal(flow: Flow, ghost body: seq<Stmt>, ghost walk: Walk)
      requires walk == StartWalk(index, body) && Finished(walk, Now(), flow)
      modifies `graph, `closed
      ensures Holding(walk, Now(), flow.transfers) && Grown(old(graph), graph, {})
      ensures flow.normal.Some? ==> graph.Links(flow.normal.value, [], EXIT)
    {
      hide AfterSeq, CollectSeq, ScopesInSeq, WorldOk, TransfersOk, Extends, StartWorld, Feeds, TextOf;
      ExitStays(index, body, Now(), flow.transfers);
      GrownSelf(graph);
      if flow.normal.Some? {
        BoundaryNormal(graph.Content(flow.normal.value), notes[flow.normal.value].future);
        AddPlainEdge(flow.normal.value, EXIT, Normally, walk, flow.transfers);
      }
    }

    method RouteTransfer(t: Transfer, ghost ts: seq<Transfer>, ghost body: seq<Stmt>, ghost walk: Walk)
      requires walk == StartWalk(index, body) && Holding(walk, Now(), ts) && t in ts
      modifies `graph, `closed
      ensures Holding(walk, Now(), ts) && Grown(old(graph), graph, {}) && Leads(graph, t)
    {
      hide AfterSeq, CollectSeq, ScopesInSeq, WorldOk, Extends, StartWorld, TextOf;
      ExitStays(index, body, Now(), ts);
      assert TransferOk(Now(), StartSite(), t, AtBoundary());
      NoJumpsLeft(Now(), t);
      BoundaryMark(t);
      BoundaryFeeds(graph.Content(t.source), Mark(BoundaryEdge(t)), TransferOutcome(t), notes[t.source].future);
      hide Holding, TransfersOk, Grown, Mark;
      var target := BoundaryTarget(t);
      if target.Some? {
        AddClosedEdge(t.source, target.value, BoundaryEdge(t), walk, ts);
      }
    }
  }

  /** The numbers matter for nothing but the cleanups that carry them. */
  lemma NumberedMeaning(g: Graph, index: TypeIndex, body: seq<Stmt>)
    requires RunsHavePaths(g, index, NumberSeq(body, 0).tree) && PathsHaveRuns(g, index, NumberSeq(body, 0).tree)
    ensures RunsFollowed(g, index, body) && PathsFollowed(g, index, body)
  {
    hide IsRunSeq, Connects, NumberSeq, EraseSeq, Unnumbered, PathTrace;
    var numbered, e := NumberSeq(body, 0).tree, StartEnv(index);
    NumberSeqErased(body, 0);
    forall r | IsRunSeq(body, e, r)
      ensures exists q :: Connects(g, q, ENTRY, EXIT) && Unnumbered(PathTrace(g, ENTRY, q)) == Unnumbered(Crossing(r)) {
      var x := AlikeSeqRun(body, numbered, e, r);
      SameCrossing(r, x);
      var q :| Connects(g, q, ENTRY, EXIT) && PathTrace(g, ENTRY, q) == Crossing(x);
    }
    forall q | Connects(g, q, ENTRY, EXIT)
      ensures exists r :: IsRunSeq(body, e, r) && Unnumbered(Crossing(r)) == Unnumbered(PathTrace(g, ENTRY, q)) {
      var x :| IsRunSeq(numbered, e, x) && Crossing(x) == PathTrace(g, ENTRY, q);
      var r := AlikeSeqRun(numbered, body, e, x);
      SameCrossing(x, r);
    }
  }

  lemma SameCrossing(r: Run, x: Run)
    requires SameRun(r, x)
    ensures Unnumbered(Crossing(r)) == Unnumbered(Crossing(x))
  {
    hide Unnumbered;
    UnnumberedAppend(Events(r), LeaveMark(r.out));
    UnnumberedAppend(Events(x), LeaveMark(x.out));
  }

  /**
    The control-flow graph of one routine: number its `try..finally` statements, walk it,
    and lead whatever is left pending to the exit block.
    */
  method BuildScope(index: TypeIndex, body: seq<Stmt>) returns (g: Graph, ghost w: World)
    ensures RunsFollowed(g, index, body) && PathsFollowed(g, index, body)
    ensures RunsHavePaths(g, index, NumberSeq(body, 0).tree) && PathsHaveRuns(g, index, NumberSeq(body, 0).tree)
    ensures w.graph == g && GraphOk(w) && Labelled(RoutineProgram(index, NumberSeq(body, 0).tree), w) && ExitKept(w)
    ensures g.blocks[ENTRY].kind == Entry && g.blocks[EXIT].kind == ExitBlock
  {
    hide DistinctSeq, CollectSeq, StartWorld, GraphOk, Labelled, ExitKept, RunsHavePaths, PathsHaveRuns;
    hide RunsFollowed, PathsFollowed, NumberSeq;
    var numbered := NumberSeq(body, 0).tree;
    NumberSeqDistinct(body, 0);
    var ctx := new BuildContext(index, numbered);
    ctx.WalkRoutine(numbered);
    NumberedMeaning(ctx.graph, index, body);
    g, w := ctx.graph, ctx.Now();
  }
}
