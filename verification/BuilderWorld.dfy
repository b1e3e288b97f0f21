/**
  The state of the control-flow builder and what stays true of it.

  Besides the graph and the finalizer cache that the builder really keeps, the world records
  for every block the future that the structured program allows from it, the cleanup scopes
  around it, and whether it is closed: a closed block receives no further statement.
  */
module BuilderWorld {
  import opened ExceptionTypes
  import opened PascalSyntax
  import opened StructuredRuns
  import opened Continuations
  import opened ControlFlowGraph
  import opened PendingTransfers
  import opened ScopePlacement

  // ---- Where the walk stands

  /** The part of the context that decides where an abrupt completion goes. */
  datatype Site = Site(
    scopes: seq<ScopeId>,
    loops: seq<LoopFrame>,
    dispatch: seq<nat>,
    levels: nat,
    handled: seq<Fact>)
  {
    function Depths(): Depths {
      ScopePlacement.Depths(scopes, |loops|, |dispatch|, levels, |handled|)
    }
  }

  /** Identity of a memoised finalizer body. */
  datatype CacheKey = CacheKey(
    scope: ScopeId,
    continuation: Option<ContinuationKey>,
    caller: Option<nat>,
    site: Site)

  /** Identity of a finalizer's normal return. */
  datatype ReturnKey = ReturnKey(
    scope: ScopeId,
    local: Option<ContinuationKey>,
    suspended: Option<ContinuationKey>,
    caller: Option<nat>,
    handled: seq<Fact>)

  datatype CachedBody = CachedBody(entry: BlockId, flow: Flow)

  /** The fixed surroundings of one walk. */
  datatype Program = Program(index: TypeIndex, placements: Placements)

  function LastFact(handled: seq<Fact>): Fact {
    if handled == [] then Unknown else handled[|handled| - 1]
  }

  function EnvAt(p: Program, site: Site): Env {
    Env(p.index, site.loops != [], LastFact(site.handled))
  }

  // ---- The world

  /** Recorded about a block: its allowed future, its cleanup scopes, and its kind. */
  datatype Note = Note(future: Future, scopes: seq<ScopeId>, kind: BlockKind)

  /** The continuation installed by the innermost loop or `try..except`, below `scopes` scopes. */
  datatype Base = Base(kont: Kont, scopes: nat)

  datatype World = World(
    graph: Graph,
    notes: seq<Note>,
    closed: set<BlockId>,
    cache: map<CacheKey, CachedBody>,
    origin: map<CacheKey, CacheKey>,
    returnIds: map<ReturnKey, nat>,
    nextReturn: nat,
    bases: map<(seq<LoopFrame>, seq<nat>), Base>,
    nextDispatch: nat)
  {
    ghost predicate Has(b: BlockId) {
      b < |graph.blocks| && b < |notes|
    }

    /** A block on which the walk may go on: it holds a statement already, or is not closed. */
    ghost predicate Usable(b: BlockId) {
      Has(b) && (graph.Stmts(b) == [] ==> b !in closed)
    }

    function WithBlock(kind: BlockKind, note: Note): World {
      this.(graph := graph.NewBlock(kind), notes := notes + [note])
    }

    function WithEdge(e: Edge): World {
      this.(graph := graph.AddEdge(e), closed := closed + {e.src})
    }

    function WithStmts(b: BlockId, ids: seq<StmtId>): World
      requires b < |graph.blocks|
    {
      this.(graph := graph.AddStmts(b, ids), closed := closed + {b})
    }

    function Closing(b: BlockId): World {
      this.(closed := closed + {b})
    }
  }

  // ---- Continuations of abrupt completions, as a function of the site

  /** The future of completing with `o` below the given cleanup scopes. */
  ghost function Unwind(p: Program, inLoop: bool, scopes: seq<ScopeId>, handled: seq<Fact>, k: Kont, o: Outcome): Future
    decreases |scopes|
  {
    if scopes == [] then k(o)
    else
      var f := scopes[|scopes| - 1];
      if f !in p.placements.cleanups then iset{}
      else
        var here := p.placements.cleanups[f];
        var e := Env(p.index, inLoop,
                     LastFact(if here.at.handled <= |handled| then handled[..here.at.handled] else handled));
        Cleaned(f, o, here.cleanup, e, (o': Outcome) => Unwind(p, inLoop, scopes[..|scopes| - 1], handled, k, o'))
  }

  ghost predicate SiteKnown(w: World, site: Site) {
    (site.loops, site.dispatch) in w.bases && w.bases[(site.loops, site.dispatch)].scopes <= |site.scopes|
  }

  /** The future of completing abruptly with `o` at a site. */
  ghost function PendingFuture(p: Program, w: World, site: Site, o: Outcome): Future
    requires SiteKnown(w, site)
  {
    var base := w.bases[(site.loops, site.dispatch)];
    Unwind(p, site.loops != [], site.scopes[base.scopes..], site.handled, base.kont, o)
  }

  /** The continuation agrees with the site on every abrupt completion. */
  ghost predicate Follows(p: Program, w: World, site: Site, k: Kont) {
    SiteKnown(w, site) && forall o: Outcome :: !o.Normal? ==> k(o) == PendingFuture(p, w, site, o)
  }

  /** The continuation of a site, as far as abrupt completions go. */
  ghost function PendingAt(p: Program, w: World, site: Site): Kont
    requires SiteKnown(w, site)
  {
    (o: Outcome) => PendingFuture(p, w, site, o)
  }

  // ---- What a flow promises

  /** The trace ends at the flow's matching end. */
  ghost predicate Lands(g: Graph, start: BlockId, trace: Trace, out: Outcome, flow: Flow) {
    if out.Normal? then flow.normal.Some? && Reaches(g, start, trace, flow.normal.value)
    else exists t :: t in flow.transfers && TransferOutcome(t) == out && Reaches(g, start, trace, t.source)
  }

  /** Every run of the statement has a path from `start` that visits the same references. */
  ghost predicate Simulates(g: Graph, s: Stmt, e: Env, start: BlockId, before: Trace, flow: Flow) {
    forall r :: IsRun(s, e, r) ==> Lands(g, start, before + Events(r), r.out, flow)
  }

  ghost predicate SimulatesSeq(g: Graph, ss: seq<Stmt>, e: Env, start: BlockId, before: Trace, flow: Flow) {
    forall r :: IsRunSeq(ss, e, r) ==> Lands(g, start, before + Events(r), r.out, flow)
  }

  /** One pending transfer: closed source, canonical key, and its future is allowed there. */
  ghost predicate TransferOk(w: World, site: Site, t: Transfer, k: Kont) {
    && w.Has(t.source)
    && t.source in w.closed
    && w.notes[t.source].scopes == site.scopes
    && KeyOf(t) == KeyFor(site.loops, TransferOutcome(t))
    && (t.kind.ToBreak? || t.kind.ToContinue? ==> site.loops != [])
    && Feeds(w.graph.Content(t.source), k(TransferOutcome(t)), w.notes[t.source].future)
  }

  ghost predicate TransfersOk(w: World, site: Site, ts: seq<Transfer>, k: Kont) {
    forall t :: t in ts ==> TransferOk(w, site, t, k)
  }

  ghost predicate EndOk(w: World, site: Site, b: BlockId, next: Future) {
    && w.Has(b)
    && w.notes[b].scopes == site.scopes
    && Feeds(w.graph.Content(b), next, w.notes[b].future)
  }

  ghost predicate FlowOk(w: World, site: Site, flow: Flow, k: Kont) {
    && TransfersOk(w, site, flow.transfers, k)
    && (flow.normal.Some? ==> EndOk(w, site, flow.normal.value, k(Normal)))
  }

  /** The flow has exactly the completions that the syntax predicts. */
  ghost predicate Predicted(flow: Flow, completes: bool, outs: set<Outcome>) {
    (flow.normal.Some? <==> completes) && Outcomes(flow.transfers) == outs
  }

  // ---- Invariants

  /** One step of a path enters a scope, stays, or leaves the innermost scope by its finalizer. */
  ghost predicate ScopeStep(from: Note, to: Note) {
    || to.scopes == from.scopes
    || (to.scopes != [] && to.scopes[..|to.scopes| - 1] == from.scopes)
    || (from.scopes != [] && to.scopes == from.scopes[..|from.scopes| - 1]
        && to.kind.FinallyHandler? && to.kind.scope == from.scopes[|from.scopes| - 1])
  }

  /**
    Exceptions, and nothing else, are thrown: to a handler, to a finalizer made for them, or out of
    the routine. Other completions enter a finalizer that was made for them.
    */
  predicate KindFits(kind: EdgeKind, to: BlockKind) {
    match to
    case FinallyHandler(_, o) => kind == EntryKind(o)
    case ExceptHandler => kind == ExceptionThrow
    case BareExceptHandler => kind == ExceptionThrow
    case ExitBlock => kind == ExceptionThrow || Mark(kind) == []
    case Plain => kind != ExceptionThrow && kind != FinallyEntry
    case Entry => false
  }

  ghost predicate EdgeOk(w: World, e: Edge) {
    && w.Has(e.src)
    && w.Has(e.dst)
    && e.src in w.closed
    && KindFits(e.kind, w.notes[e.dst].kind)
    && ScopeStep(w.notes[e.src], w.notes[e.dst])
    && Feeds(w.graph.Content(e.src) + Mark(e.kind), w.notes[e.dst].future, w.notes[e.src].future)
  }

  ghost predicate GraphOk(w: World) {
    && |w.notes| == |w.graph.blocks|
    && (forall b :: b in w.closed ==> b < |w.notes|)
    && (forall b :: 0 <= b < |w.notes| && w.graph.Stmts(b) != [] ==> b in w.closed)
    && (forall e :: e in w.graph.edges ==> EdgeOk(w, e))
  }

  /** A memoised body that resumes a transfer can be entered again from any equal site. */
  ghost predicate CachedOk(p: Program, w: World, key: CacheKey, c: CachedBody)
    requires key.continuation.Some?
  {
    && key.scope in p.placements.cleanups
    && SiteKnown(w, key.site)
    && w.Has(c.entry)
    && var body := p.placements.cleanups[key.scope].cleanup;
       var e := EnvAt(p, key.site);
       var o := OutcomeOf(key.continuation.value);
       var k := PendingAt(p, w, key.site);
       && w.notes[c.entry] == Note(Finalized(key.scope, o, body, e, k), key.site.scopes, FinallyHandler(key.scope, o))
       && FlowOk(w, key.site, c.flow, Resume(k, o))
       && (c.flow.normal.Some? ==> c.flow.normal.value in w.closed)
       && SimulatesSeq(w.graph, body, e, c.entry, [Cleanup(key.scope, o)], c.flow)
       && Predicted(c.flow, CompletesSeq(body), OutsSeq(body, e))
  }

  ghost predicate CacheOk(p: Program, w: World) {
    forall key :: key in w.cache && key.continuation.Some? ==> CachedOk(p, w, key, w.cache[key])
  }

  ghost predicate FrameBelow(f: LoopFrame, n: nat) {
    f.breakTarget < n && f.continueTarget < n
  }

  ghost predicate BasesOk(w: World) {
    forall key :: key in w.bases ==>
      && (forall f :: f in key.0 ==> FrameBelow(f, |w.notes|))
      && (forall d :: d in key.1 ==> d < w.nextDispatch)
  }

  ghost predicate ReturnsOk(w: World) {
    && (forall a :: a in w.returnIds ==> w.returnIds[a] < w.nextReturn)
    && forall a, b :: a in w.returnIds && b in w.returnIds && w.returnIds[a] == w.returnIds[b] ==> a == b
  }

  /** The cache key under which a finalizer with this return identity is walked. */
  ghost predicate KeyMatches(key: CacheKey, r: ReturnKey) {
    && key.scope == r.scope
    && key.continuation == r.local
    && key.caller == (if r.local.None? then r.caller else None)
    && key.site.handled == r.handled
  }

  ghost predicate ReturnsAs(w: World, key: CacheKey, id: nat) {
    exists r :: r in w.returnIds && w.returnIds[r] == id && KeyMatches(key, r)
  }

  ghost predicate SitePrefix(a: Site, b: Site) {
    && a.scopes <= b.scopes
    && a.loops <= b.loops
    && a.dispatch <= b.dispatch
    && a.handled <= b.handled
  }

  /** The site of a scope's key has the depth at which the scope is placed. */
  ghost predicate AtPlacement(p: Program, key: CacheKey) {
    key.scope in p.placements.cleanups && key.site.Depths() == p.placements.cleanups[key.scope].at
  }

  /**
    A body that completes normally into its caller was created inside the finalizer walk that
    its caller identity names.
    */
  ghost predicate OriginOk(p: Program, w: World, active: set<CacheKey>, key: CacheKey) {
    key.caller.Some? ==>
      && key in w.origin
      && (w.origin[key] in w.cache || w.origin[key] in active)
      && ReturnsAs(w, w.origin[key], key.caller.value)
      && SitePrefix(w.origin[key].site, key.site)
      && AtPlacement(p, w.origin[key])
  }

  ghost predicate OriginsOk(p: Program, w: World, active: set<CacheKey>) {
    && (forall key :: key in w.origin ==> key in w.cache)
    && forall key :: key in w.cache && key.continuation.None? ==> OriginOk(p, w, active, key)
  }

  /** Blocks hold references in their syntactic scopes and are of the noted kind. */
  ghost predicate BlockLabelled(p: Program, block: BasicBlock, note: Note) {
    && (forall id :: id in block.stmts ==> Home(id, note.scopes) in p.placements.homes)
    && block.kind == note.kind
  }

  ghost predicate Labelled(p: Program, w: World) {
    forall b :: 0 <= b < |w.notes| && b < |w.graph.blocks| ==> BlockLabelled(p, w.graph.blocks[b], w.notes[b])
  }

  ghost predicate WorldOk(p: Program, w: World, active: set<CacheKey>) {
    && GraphOk(w)
    && Labelled(p, w)
    && CacheOk(p, w)
    && BasesOk(w)
    && ReturnsOk(w)
    && OriginsOk(p, w, active)
  }

  // ---- Growth of the world

  ghost predicate Extends(w: World, w': World, touched: set<BlockId>) {
    && Grown(w.graph, w'.graph, touched)
    && w.notes <= w'.notes
    && w.closed <= w'.closed
    && touched !! w.closed
    && (forall b :: b in w'.closed && b < |w.notes| ==> b in w.closed || b in touched)
    && Keeps(w.cache, w'.cache)
    && Keeps(w.origin, w'.origin)
    && Keeps(w.returnIds, w'.returnIds)
    && Keeps(w.bases, w'.bases)
    && w.nextDispatch <= w'.nextDispatch
    && w.nextReturn <= w'.nextReturn
  }

  ghost predicate Keeps<X, Y>(m: map<X, Y>, m': map<X, Y>) {
    forall x :: x in m ==> x in m' && m'[x] == m[x]
  }

  /** Only the named scopes gained memoised bodies. */
  ghost predicate NewKeys(w: World, w': World, scopes: set<ScopeId>) {
    forall key :: key in w'.cache && key !in w.cache ==> key.scope in scopes
  }

  // ---- Stability

  /** A step that keeps the blocks' references keeps their labels. */
  lemma LabelsKept(p: Program, w: World, w': World)
    requires Labelled(p, w) && w'.notes == w.notes && w'.graph.blocks == w.graph.blocks
    ensures Labelled(p, w')
  {
    hide BlockLabelled;
  }

  lemma OpenTouched(w: World, touched: set<BlockId>)
    requires GraphOk(w) && touched !! w.closed
    ensures AllOpen(w.graph, touched)
  {}

  lemma ContentKept(w: World, w': World, touched: set<BlockId>, b: BlockId)
    requires GraphOk(w) && Extends(w, w', touched) && w.Has(b) && b !in touched
    ensures w'.graph.Content(b) == w.graph.Content(b) && w'.notes[b] == w.notes[b] && |w.notes| <= |w'.notes|
  {}

  lemma LandsKept(w: World, w': World, touched: set<BlockId>, start: BlockId, trace: Trace, out: Outcome, flow: Flow)
    requires GraphOk(w) && Extends(w, w', touched)
    requires forall t :: t in flow.transfers ==> t.source in w.closed
    requires flow.normal.Some? ==> flow.normal.value !in touched
    requires Lands(w.graph, start, trace, out, flow)
    ensures Lands(w'.graph, start, trace, out, flow)
  {
    OpenTouched(w, touched);
    if out.Normal? {
      ReachesGrown(w.graph, w'.graph, touched, start, trace, flow.normal.value);
    } else {
      var t :| t in flow.transfers && TransferOutcome(t) == out && Reaches(w.graph, start, trace, t.source);
      ReachesGrown(w.graph, w'.graph, touched, start, trace, t.source);
    }
  }

  lemma SimulatesSeqKept(
    w: World, w': World, touched: set<BlockId>, ss: seq<Stmt>, e: Env, start: BlockId, before: Trace, flow: Flow)
    requires GraphOk(w) && Extends(w, w', touched)
    requires forall t :: t in flow.transfers ==> t.source in w.closed
    requires flow.normal.Some? ==> flow.normal.value !in touched
    requires SimulatesSeq(w.graph, ss, e, start, before, flow)
    ensures SimulatesSeq(w'.graph, ss, e, start, before, flow)
  {
    forall r | IsRunSeq(ss, e, r) ensures Lands(w'.graph, start, before + Events(r), r.out, flow) {
      LandsKept(w, w', touched, start, before + Events(r), r.out, flow);
    }
  }

  lemma TransfersKept(w: World, w': World, touched: set<BlockId>, site: Site, ts: seq<Transfer>, k: Kont)
    requires GraphOk(w) && Extends(w, w', touched) && GraphOk(w')
    requires TransfersOk(w, site, ts, k)
    ensures TransfersOk(w', site, ts, k)
  {
    forall t | t in ts ensures TransferOk(w', site, t, k) {
      assert TransferOk(w, site, t, k);
      ContentKept(w, w', touched, t.source);
    }
  }

  lemma FlowKept(w: World, w': World, touched: set<BlockId>, site: Site, flow: Flow, k: Kont)
    requires GraphOk(w) && Extends(w, w', touched) && GraphOk(w')
    requires FlowOk(w, site, flow, k)
    requires flow.normal.Some? ==> flow.normal.value !in touched
    ensures FlowOk(w', site, flow, k)
  {
    TransfersKept(w, w', touched, site, flow.transfers, k);
    if flow.normal.Some? {
      ContentKept(w, w', touched, flow.normal.value);
    }
  }

  lemma PendingKept(p: Program, w: World, w': World, site: Site, o: Outcome)
    requires Keeps(w.bases, w'.bases) && SiteKnown(w, site)
    ensures SiteKnown(w', site) && PendingFuture(p, w', site, o) == PendingFuture(p, w, site, o)
  {}

  lemma FollowsKept(p: Program, w: World, w': World, site: Site, k: Kont)
    requires Keeps(w.bases, w'.bases) && Follows(p, w, site, k)
    ensures Follows(p, w', site, k)
  {
    forall o: Outcome | !o.Normal? ensures k(o) == PendingFuture(p, w', site, o) {
      PendingKept(p, w, w', site, o);
    }
  }

  lemma FlowOkCong(w: World, site: Site, flow: Flow, k: Kont, k': Kont)
    requires FlowOk(w, site, flow, k)
    requires forall o: Outcome :: k(o) == k'(o)
    ensures FlowOk(w, site, flow, k')
  {
    forall t | t in flow.transfers ensures TransferOk(w, site, t, k') {
      assert TransferOk(w, site, t, k);
    }
  }

  lemma CachedKept(p: Program, w: World, w': World, touched: set<BlockId>, key: CacheKey, c: CachedBody)
    requires key.continuation.Some?
    requires GraphOk(w) && Extends(w, w', touched) && GraphOk(w')
    requires CachedOk(p, w, key, c)
    ensures CachedOk(p, w', key, c)
  {
    var body := p.placements.cleanups[key.scope].cleanup;
    var e := EnvAt(p, key.site);
    var o := OutcomeOf(key.continuation.value);
    var k, k' := PendingAt(p, w, key.site), PendingAt(p, w', key.site);
    forall o': Outcome ensures Resume(k, o)(o') == Resume(k', o)(o') {
      PendingKept(p, w, w', key.site, if o'.Normal? then o else o');
    }
    FinalizedCong(key.scope, o, body, e, k, k');
    assert forall t :: t in c.flow.transfers ==> TransferOk(w, key.site, t, Resume(k, o));
    FlowKept(w, w', touched, key.site, c.flow, Resume(k, o));
    FlowOkCong(w', key.site, c.flow, Resume(k, o), Resume(k', o));
    SimulatesSeqKept(w, w', touched, body, e, c.entry, [Cleanup(key.scope, o)], c.flow);
  }

  /** Growth that leaves the memoised bodies alone keeps them all good. */
  lemma CacheKept(p: Program, w: World, w': World, touched: set<BlockId>)
    requires GraphOk(w) && Extends(w, w', touched) && GraphOk(w')
    requires CacheOk(p, w) && w'.cache == w.cache
    ensures CacheOk(p, w')
  {
    forall key | key in w'.cache && key.continuation.Some? ensures CachedOk(p, w', key, w'.cache[key]) {
      CachedKept(p, w, w', touched, key, w.cache[key]);
    }
  }

  lemma ExtendsRefl(w: World)
    ensures Extends(w, w, {})
  {}

  /** Growth in two stages; blocks that are new after the first stage need not be mentioned. */
  lemma ExtendsTrans(w0: World, w1: World, w2: World, t1: set<BlockId>, t2: set<BlockId>, t: set<BlockId>)
    requires GraphOk(w0) && GraphOk(w1)
    requires Extends(w0, w1, t1) && Extends(w1, w2, t2)
    requires t1 <= t && t !! w0.closed
    requires forall b :: b in t2 && b < |w0.notes| ==> b in t
    ensures Extends(w0, w2, t)
  {
    assert w0.graph.edges <= w2.graph.edges;
    forall b: nat | b < |w0.graph.blocks| && b !in t
      ensures w2.graph.blocks[b] == w0.graph.blocks[b]
    {
      assert w1.graph.blocks[b] == w0.graph.blocks[b];
    }
  }
}
