/** Laws of the builder's primitive steps: what each keeps and what each establishes. */
module BuilderLaws {
  import opened ExceptionTypes
  import opened PascalSyntax
  import opened StructuredRuns
  import opened Continuations
  import opened ControlFlowGraph
  import opened PendingTransfers
  import opened ScopePlacement
  import opened BuilderWorld

  /** A walk in progress: where it started, what it may touch and what follows it. */
  datatype Walk = Walk(
    program: Program,
    start: World,
    cur: BlockId,
    scopes: set<ScopeId>,
    keys: set<CacheKey>,
    site: Site,
    k: Kont)
  {
    /** Blocks that this walk may fill: its own, and only if that was still open. */
    ghost function Touched(): set<BlockId> {
      {cur} - start.closed
    }

    ghost predicate Owns(w: World, b: BlockId) {
      b in w.closed || b >= |start.notes| || b == cur
    }
  }

  /** The world is good, has only grown since the walk began, and the transfers can wait. */
  ghost predicate Holding(walk: Walk, w: World, ts: seq<Transfer>) {
    && WorldOk(walk.program, w, walk.keys)
    && GraphOk(walk.start)
    && Extends(walk.start, w, walk.Touched())
    && NewKeys(walk.start, w, walk.scopes)
    && SiteKnown(walk.start, walk.site)
    && TransfersOk(w, walk.site, ts, walk.k)
  }

  lemma OriginsKept(p: Program, w: World, w': World, active: set<CacheKey>)
    requires OriginsOk(p, w, active)
    requires w'.cache == w.cache && w'.origin == w.origin && Keeps(w.returnIds, w'.returnIds)
    ensures OriginsOk(p, w', active)
  {
    forall key | key in w'.cache && key.continuation.None? ensures OriginOk(p, w', active, key) {
      assert OriginOk(p, w, active, key);
      if key.caller.Some? {
        var r :| r in w.returnIds && w.returnIds[r] == key.caller.value && KeyMatches(w.origin[key], r);
        assert r in w'.returnIds;
      }
    }
  }

  /** A step that changes only the graph and the notes on it. */
  ghost predicate GraphStep(w: World, w': World) {
    w' == w.(graph := w'.graph, notes := w'.notes, closed := w'.closed)
  }

  lemma GraphStepOk(p: Program, w: World, w': World, active: set<CacheKey>, touched: set<BlockId>)
    requires WorldOk(p, w, active) && GraphStep(w, w') && Extends(w, w', touched) && GraphOk(w') && Labelled(p, w')
    ensures WorldOk(p, w', active)
  {
    CacheKept(p, w, w', touched);
    OriginsKept(p, w, w', active);
  }

  lemma HoldingStep(walk: Walk, w: World, w': World, ts: seq<Transfer>, touched: set<BlockId>)
    requires Holding(walk, w, ts)
    requires GraphStep(w, w') && Extends(w, w', touched) && GraphOk(w') && Labelled(walk.program, w')
    requires forall b :: b in touched && b < |walk.start.notes| ==> b == walk.cur
    ensures Holding(walk, w', ts)
  {
    GraphStepOk(walk.program, w, w', walk.keys, touched);
    ExtendsTrans(walk.start, w, w', walk.Touched(), touched, walk.Touched());
    TransfersKept(w, w', touched, walk.site, ts, walk.k);
  }

  // ---- Primitive steps

  /** A new block may carry this note. */
  ghost predicate CanNote(kind: BlockKind, note: Note) {
    kind == note.kind
  }

  lemma BlockLabels(p: Program, w: World, kind: BlockKind, note: Note)
    requires GraphOk(w) && Labelled(p, w) && CanNote(kind, note)
    ensures Labelled(p, w.WithBlock(kind, note))
  {
    hide EdgeOk;
  }

  lemma BlockStep(walk: Walk, w: World, ts: seq<Transfer>, kind: BlockKind, note: Note)
    requires Holding(walk, w, ts) && CanNote(kind, note)
    ensures Holding(walk, w.WithBlock(kind, note), ts)
    ensures Extends(w, w.WithBlock(kind, note), {})
  {
    hide CacheOk, BasesOk, ReturnsOk, OriginsOk, TransfersOk, Labelled, GraphOk, CanNote;
    BlockGraph(w, kind, note);
    BlockLabels(walk.program, w, kind, note);
    hide Extends;
    HoldingStep(walk, w, w.WithBlock(kind, note), ts, {});
  }

  lemma BlockGraph(w: World, kind: BlockKind, note: Note)
    requires GraphOk(w)
    ensures GraphOk(w.WithBlock(kind, note)) && Extends(w, w.WithBlock(kind, note), {})
  {
    hide Feeds;
    var w' := w.WithBlock(kind, note);
    forall e | e in w'.graph.edges ensures EdgeOk(w', e) {
      assert EdgeOk(w, e);
    }
  }

  lemma EdgeStep(walk: Walk, w: World, ts: seq<Transfer>, e: Edge)
    requires Holding(walk, w, ts)
    requires w.Has(e.src) && w.Has(e.dst) && walk.Owns(w, e.src)
    requires ScopeStep(w.notes[e.src], w.notes[e.dst]) && KindFits(e.kind, w.notes[e.dst].kind)
    requires Feeds(w.graph.Content(e.src) + Mark(e.kind), w.notes[e.dst].future, w.notes[e.src].future)
    ensures Holding(walk, w.WithEdge(e), ts)
    ensures Extends(w, w.WithEdge(e), {e.src} - w.closed)
    ensures w.WithEdge(e).graph.Links(e.src, Mark(e.kind), e.dst)
  {
    hide CacheOk, BasesOk, ReturnsOk, OriginsOk, TransfersOk, Labelled, GraphOk, Feeds, ScopeStep, KindFits;
    EdgeGraph(w, e);
    LabelsKept(walk.program, w, w.WithEdge(e));
    hide Extends;
    HoldingStep(walk, w, w.WithEdge(e), ts, {e.src} - w.closed);
  }

  lemma EdgeGraph(w: World, e: Edge)
    requires GraphOk(w) && w.Has(e.src) && w.Has(e.dst) && ScopeStep(w.notes[e.src], w.notes[e.dst])
    requires KindFits(e.kind, w.notes[e.dst].kind)
    requires Feeds(w.graph.Content(e.src) + Mark(e.kind), w.notes[e.dst].future, w.notes[e.src].future)
    ensures GraphOk(w.WithEdge(e)) && Extends(w, w.WithEdge(e), {e.src} - w.closed)
    ensures w.WithEdge(e).graph.Links(e.src, Mark(e.kind), e.dst)
  {
    hide Feeds, ScopeStep, Mark, KindFits;
    var w' := w.WithEdge(e);
    assert e in w'.graph.edges;
    forall x | x in w'.graph.edges ensures EdgeOk(w', x) {
      if x in w.graph.edges {
        assert EdgeOk(w, x);
      }
    }
  }

  /** The references belong here. */
  ghost predicate CanHold(p: Program, note: Note, ids: seq<StmtId>) {
    forall id :: id in ids ==> Home(id, note.scopes) in p.placements.homes
  }

  lemma StmtsLabels(p: Program, w: World, b: BlockId, ids: seq<StmtId>)
    requires GraphOk(w) && Labelled(p, w) && w.Has(b) && CanHold(p, w.notes[b], ids)
    ensures Labelled(p, w.WithStmts(b, ids))
  {
    hide EdgeOk;
    var w' := w.WithStmts(b, ids);
    forall c | 0 <= c < |w'.notes| && c < |w'.graph.blocks| ensures BlockLabelled(p, w'.graph.blocks[c], w'.notes[c]) {
      assert BlockLabelled(p, w.graph.blocks[c], w.notes[c]);
    }
  }

  lemma StmtsStep(walk: Walk, w: World, ts: seq<Transfer>, b: BlockId, ids: seq<StmtId>)
    requires Holding(walk, w, ts)
    requires w.Has(b) && b !in w.closed && walk.Owns(w, b) && CanHold(walk.program, w.notes[b], ids)
    ensures Holding(walk, w.WithStmts(b, ids), ts)
    ensures Extends(w, w.WithStmts(b, ids), {b})
  {
    hide CacheOk, BasesOk, ReturnsOk, OriginsOk, TransfersOk, CanHold, Labelled, GraphOk;
    StmtsLabels(walk.program, w, b, ids);
    StmtsGraph(w, b, ids);
    hide Extends;
    HoldingStep(walk, w, w.WithStmts(b, ids), ts, {b});
  }

  lemma StmtsGraph(w: World, b: BlockId, ids: seq<StmtId>)
    requires GraphOk(w) && w.Has(b) && b !in w.closed
    ensures GraphOk(w.WithStmts(b, ids)) && Extends(w, w.WithStmts(b, ids), {b})
  {
    hide Feeds, ScopeStep;
    var w' := w.WithStmts(b, ids);
    forall e | e in w'.graph.edges ensures EdgeOk(w', e) {
      assert EdgeOk(w, e);
    }
  }

  lemma CloseStep(walk: Walk, w: World, ts: seq<Transfer>, b: BlockId)
    requires Holding(walk, w, ts)
    requires w.Has(b) && walk.Owns(w, b)
    ensures Holding(walk, w.Closing(b), ts)
    ensures Extends(w, w.Closing(b), {b} - w.closed)
  {
    hide CacheOk, BasesOk, ReturnsOk, OriginsOk, TransfersOk, Labelled, GraphOk;
    CloseGraph(w, b);
    LabelsKept(walk.program, w, w.Closing(b));
    hide Extends;
    HoldingStep(walk, w, w.Closing(b), ts, {b} - w.closed);
  }

  lemma CloseGraph(w: World, b: BlockId)
    requires GraphOk(w) && w.Has(b)
    ensures GraphOk(w.Closing(b)) && Extends(w, w.Closing(b), {b} - w.closed)
  {
    hide Feeds, ScopeStep;
    var w' := w.Closing(b);
    forall e | e in w'.graph.edges ensures EdgeOk(w', e) {
      assert EdgeOk(w, e);
    }
  }

  lemma HoldingGraph(walk: Walk, w: World, ts: seq<Transfer>)
    requires Holding(walk, w, ts)
    ensures GraphOk(w) && GraphOk(walk.start)
  {}

  lemma HoldingMore(walk: Walk, w: World, ts: seq<Transfer>, us: seq<Transfer>)
    requires Holding(walk, w, ts) && TransfersOk(w, walk.site, us, walk.k)
    ensures Holding(walk, w, ts + us)
  {}

  // ---- What a walk needs and what it gives

  /** The finalizer being walked, if any, is recorded among the active ones. */
  ghost predicate ActiveOk(p: Program, w: World, site: Site, active: Option<nat>, keys: set<CacheKey>) {
    active.Some? ==>
      exists key :: key in keys && ReturnsAs(w, key, active.value) && SitePrefix(key.site, site) && AtPlacement(p, key)
  }

  /** No body for these scopes has been memoised for a normal return into this very walk. */
  ghost predicate FreshFor(w: World, site: Site, active: Option<nat>, scopes: set<ScopeId>) {
    forall key :: key in w.cache && key.continuation.None? && key.scope in scopes && key.caller == active
      ==> !SitePrefix(site, key.site)
  }

  /** The statement's own scopes are not open around it. */
  ghost predicate Apart(site: Site, keys: set<CacheKey>, scopes: set<ScopeId>) {
    && (forall f :: f in site.scopes ==> f !in scopes)
    && (forall key :: key in keys ==> key.scope !in scopes)
    && (forall frame :: frame in site.loops ==> frame.breakScopes <= site.scopes && frame.continueScopes <= site.scopes)
  }

  /** Every open cleanup scope is placed, outside the handlers that are open now. */
  ghost predicate ScopesPlaced(p: Program, site: Site) {
    forall f :: f in site.scopes ==> f in p.placements.cleanups && p.placements.cleanups[f].at.handled <= |site.handled|
  }

  ghost predicate CanWalk(walk: Walk, active: Option<nat>, future: Future) {
    && WorldOk(walk.program, walk.start, walk.keys)
    && Follows(walk.program, walk.start, walk.site, walk.k)
    && walk.start.Usable(walk.cur)
    && EndOk(walk.start, walk.site, walk.cur, future)
    && ActiveOk(walk.program, walk.start, walk.site, active, walk.keys)
    && FreshFor(walk.start, walk.site, active, walk.scopes)
    && Apart(walk.site, walk.keys, walk.scopes)
    && ScopesPlaced(walk.program, walk.site)
  }

  ghost predicate Finished(walk: Walk, w: World, flow: Flow) {
    && Holding(walk, w, flow.transfers)
    && (flow.normal.Some? ==>
          && EndOk(w, walk.site, flow.normal.value, walk.k(Normal))
          && w.Usable(flow.normal.value)
          && (flow.normal.value == walk.cur || flow.normal.value >= |walk.start.notes|))
  }

  lemma Begins(walk: Walk, active: Option<nat>, future: Future)
    requires CanWalk(walk, active, future)
    ensures Holding(walk, walk.start, [])
    ensures walk.start.Usable(walk.cur) && EndOk(walk.start, walk.site, walk.cur, future)
  {
    ExtendsRefl(walk.start);
  }

  // ---- Visiting one statement

  /** Block `b` holds exactly the references `ids`, and the walk's start leads to it. */
  ghost predicate Visited(walk: Walk, w: World, b: BlockId, ids: seq<StmtId>, future: Future) {
    && w.Has(b)
    && b in w.closed
    && (b == walk.cur || b >= |walk.start.notes|)
    && w.graph.Stmts(b) == ids
    && w.notes[b].scopes == walk.site.scopes
    && Feeds(w.graph.Lead(b), future, w.notes[b].future)
    && Reaches(w.graph, walk.cur, walk.start.graph.Content(walk.cur) + Refs(ids), b)
  }

  /** What may follow a completion of the statement may follow its block. */
  lemma LeafNext(walk: Walk, w: World, b: BlockId, s: Stmt, e: Env, ids: seq<StmtId>, out: Outcome)
    requires Visited(walk, w, b, ids, After(s, e, walk.k)) && IsRun(s, e, Leaf(Refs(ids), out))
    ensures Feeds(w.graph.Content(b), walk.k(out), w.notes[b].future)
  {
    hide IsRun;
    LeafFeeds(s, e, walk.k, Refs(ids), out);
    FeedsTrans(w.graph.Lead(b), Refs(ids), walk.k(out), After(s, e, walk.k), w.notes[b].future);
  }

  /** The same when the statement goes on from its block this way. */
  lemma HeadNext(walk: Walk, w: World, b: BlockId, s: Stmt, e: Env, ids: seq<StmtId>, mark: Trace, next: Future)
    requires Visited(walk, w, b, ids, After(s, e, walk.k)) && Feeds(Refs(ids) + mark, next, After(s, e, walk.k))
    ensures Feeds(w.graph.Content(b) + mark, next, w.notes[b].future)
  {
    hide Refs, Reaches, After, Feeds;
    var lead := w.graph.Lead(b);
    assert w.graph.Content(b) == lead + Refs(ids);
    FeedsTrans(lead, Refs(ids) + mark, next, After(s, e, walk.k), w.notes[b].future);
    assert lead + (Refs(ids) + mark) == lead + Refs(ids) + mark;
  }

  /** A transfer that a statement raises from its own block can wait there. */
  lemma LeafTransferOk(walk: Walk, w: World, b: BlockId, s: Stmt, e: Env, ids: seq<StmtId>, t: Transfer)
    requires Visited(walk, w, b, ids, After(s, e, walk.k))
    requires IsRun(s, e, Leaf(Refs(ids), TransferOutcome(t)))
    requires t.source == b && KeyOf(t) == KeyFor(walk.site.loops, TransferOutcome(t))
    requires t.kind.ToBreak? || t.kind.ToContinue? ==> walk.site.loops != []
    ensures TransferOk(w, walk.site, t, walk.k)
  {
    hide IsRun, Feeds, Reaches;
    LeafNext(walk, w, b, s, e, ids, TransferOutcome(t));
  }

  lemma LeafEndOk(walk: Walk, w: World, b: BlockId, s: Stmt, e: Env, ids: seq<StmtId>)
    requires Visited(walk, w, b, ids, After(s, e, walk.k)) && IsRun(s, e, Leaf(Refs(ids), Normal))
    ensures EndOk(w, walk.site, b, walk.k(Normal))
  {
    hide IsRun, Feeds, Reaches;
    LeafNext(walk, w, b, s, e, ids, Normal);
  }

  /** A statement that visits its own reference and nothing else. */
  predicate IsLeaf(s: Stmt) {
    s.Simple? || (s.Raise? && !s.evaluates) || s.Reraise? || s.Exit? || s.Break? || s.Continue?
  }

  /** A jump to the innermost loop, or out of the routine when there is none. */
  function JumpTransfer(kind: TransferKind, loops: seq<LoopFrame>, b: BlockId): Transfer {
    if loops == [] then ExitTransfer(b)
    else
      var frame := loops[|loops| - 1];
      if kind.ToBreak? then BlockTransfer(b, ToBreak, frame.breakTarget, frame.breakScopes)
      else BlockTransfer(b, ToContinue, frame.continueTarget, frame.continueScopes)
  }

  function LeafFlow(s: Stmt, site: Site, b: BlockId): Flow
    requires IsLeaf(s)
  {
    match s
    case Simple(_) => Flow(Some(b), [ExceptionTransfer(b, Unknown, None)])
    case Raise(_, t, name, _) => Flow(None, [ExceptionTransfer(b, RaisedFact(t), name)])
    case Reraise(_) => Flow(None, [ExceptionTransfer(b, LastFact(site.handled), None)])
    case Exit(_, arg) => Flow(None, [ExitTransfer(b)] + if arg then [ExceptionTransfer(b, Unknown, None)] else [])
    case Break(_) => Flow(None, [JumpTransfer(ToBreak, site.loops, b)])
    case Continue(_) => Flow(None, [JumpTransfer(ToContinue, site.loops, b)])
  }

  /** Every transfer of a leaf is the abrupt end of one of its runs. */
  lemma LeafTransfers(s: Stmt, p: Program, site: Site, b: BlockId, t: Transfer)
    requires IsLeaf(s) && t in LeafFlow(s, site, b).transfers
    ensures t.source == b
    ensures KeyOf(t) == KeyFor(site.loops, TransferOutcome(t))
    ensures t.kind.ToBreak? || t.kind.ToContinue? ==> site.loops != []
    ensures IsRun(s, EnvAt(p, site), Leaf(Refs([s.id]), TransferOutcome(t)))
  {}

  lemma LeafPredicted(s: Stmt, p: Program, site: Site, b: BlockId)
    requires IsLeaf(s)
    ensures Predicted(LeafFlow(s, site, b), Completes(s), Outs(s, EnvAt(p, site)))
  {
    var ts := LeafFlow(s, site, b).transfers;
    if s.Exit? && s.hasArgument {
      assert ts == [ExitTransfer(b), ExceptionTransfer(b, Unknown, None)];
      assert ts[0] in ts && ts[1] in ts;
    } else {
      assert ts == [ts[0]] && ts[0] in ts;
    }
  }

  lemma LeafRuns(s: Stmt, e: Env, r: Run)
    requires IsLeaf(s) && IsRun(s, e, r)
    ensures r == Leaf(Refs([s.id]), r.out)
  {}

  lemma LeafFinished(walk: Walk, w: World, b: BlockId, s: Stmt)
    requires IsLeaf(s) && Holding(walk, w, [])
    requires Visited(walk, w, b, [s.id], After(s, EnvAt(walk.program, walk.site), walk.k))
    ensures Finished(walk, w, LeafFlow(s, walk.site, b))
    ensures Simulates(w.graph, s, EnvAt(walk.program, walk.site), walk.cur,
                      walk.start.graph.Content(walk.cur), LeafFlow(s, walk.site, b))
    ensures Predicted(LeafFlow(s, walk.site, b), Completes(s), Outs(s, EnvAt(walk.program, walk.site)))
  {
    hide Refs, TextOf, WorldOk, Extends, Feeds, Reaches, Completes, Outs;
    var e := EnvAt(walk.program, walk.site);
    var flow := LeafFlow(s, walk.site, b);
    LeafPredicted(s, walk.program, walk.site, b);
    assert flow.normal.Some? ==> IsRun(s, e, Leaf(Refs([s.id]), Normal)) && flow.normal.value == b;
    hide LeafFlow, IsRun, After, KeyFor, KeyOf, EnvAt;
    forall t | t in flow.transfers ensures TransferOk(w, walk.site, t, walk.k) {
      LeafTransfers(s, walk.program, walk.site, b, t);
      LeafTransferOk(walk, w, b, s, e, [s.id], t);
    }
    if flow.normal.Some? {
      LeafEndOk(walk, w, b, s, e, [s.id]);
    }
    forall t | t in flow.transfers ensures t.source == b {
      LeafTransfers(s, walk.program, walk.site, b, t);
    }
    LeafSimulates(walk, w, b, s, e, flow);
  }

  lemma LeafSimulates(walk: Walk, w: World, b: BlockId, s: Stmt, e: Env, flow: Flow)
    requires IsLeaf(s) && Visited(walk, w, b, [s.id], After(s, e, walk.k))
    requires forall t :: t in flow.transfers ==> t.source == b
    requires Predicted(flow, Completes(s), Outs(s, e))
    requires flow.normal.Some? ==> flow.normal == Some(b)
    ensures Simulates(w.graph, s, e, walk.cur, walk.start.graph.Content(walk.cur), flow)
  {
    hide IsRun, After, Feeds, Reaches;
    forall r | IsRun(s, e, r)
      ensures Lands(w.graph, walk.cur, walk.start.graph.Content(walk.cur) + Events(r), r.out, flow)
    {
      LeafRuns(s, e, r);
      RunCovered(s, e, r);
      if !r.out.Normal? {
        var t :| t in flow.transfers && TransferOutcome(t) == r.out;
      }
    }
  }
}
