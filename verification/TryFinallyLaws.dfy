/** `try..finally`: the protected body, the memoised finalizer bodies, and what passes through them. */
module TryFinallyLaws {
  import opened ExceptionTypes
  import opened PascalSyntax
  import opened StructuredRuns
  import opened Continuations
  import opened ControlFlowGraph
  import opened PendingTransfers
  import opened ScopePlacement
  import opened BuilderWorld
  import opened BuilderLaws
  import opened SequenceLaws
  import opened BranchLaws
  import opened LoopLaws
  import opened TryExceptLaws
  import opened FinalizerGroups

  // ---- The protected body

  ghost function TrySite(site: Site, f: ScopeId): Site {
    site.(scopes := site.scopes + [f], levels := site.levels + 1)
  }

  /** Inside the body, leaving abruptly means running the cleanup first. */
  lemma TryFollows(p: Program, w: World, site: Site, f: ScopeId, cleanup: seq<Stmt>, e: Env, k: Kont)
    requires Follows(p, w, site, k) && e == EnvAt(p, site)
    requires f in p.placements.cleanups && p.placements.cleanups[f] == Placement(cleanup, site.Depths())
    ensures Follows(p, w, TrySite(site, f), ThroughFinally(f, cleanup, e, k))
  {
    var inner := TrySite(site, f);
    var base := w.bases[(site.loops, site.dispatch)];
    var outer := site.scopes[base.scopes..];
    assert inner.scopes[base.scopes..] == outer + [f] && (outer + [f])[..|outer|] == outer;
    assert site.handled[..|site.handled|] == site.handled;
    forall o: Outcome | !o.Normal? ensures ThroughFinally(f, cleanup, e, k)(o) == PendingFuture(p, w, inner, o) {
      var k2 := (o': Outcome) => Unwind(p, site.loops != [], outer, site.handled, base.kont, o');
      forall o': Outcome ensures Resume(k, o)(o') == Resume(k2, o)(o') {
        assert Resume(k, o)(o') == PendingFuture(p, w, site, if o'.Normal? then o else o');
      }
      FinalizedCong(f, o, cleanup, e, k, k2);
    }
  }

  lemma TryCanWalk(
    walk: Walk, active: Option<nat>, future: Future, w: World, b: BlockId, s: Stmt, e: Env)
    requires s.TryFinally? && CanWalk(walk, active, future) && Holding(walk, w, [])
    requires e == EnvAt(walk.program, walk.site)
    requires Reserved(walk, w, b, Note(AfterSeq(s.body, e, ThroughFinally(s.scope, s.cleanup, e, walk.k)),
                                       walk.site.scopes + [s.scope], Plain))
    requires s.scope in walk.program.placements.cleanups
    requires walk.program.placements.cleanups[s.scope] == Placement(s.cleanup, walk.site.Depths())
    requires w.cache == walk.start.cache && ScopesInSeq(s.body) <= walk.scopes && s.scope !in ScopesInSeq(s.body)
    ensures CanWalk(walk.(start := w, cur := b, scopes := ScopesInSeq(s.body), site := TrySite(walk.site, s.scope),
                          k := ThroughFinally(s.scope, s.cleanup, e, walk.k)),
                    active, AfterSeq(s.body, e, ThroughFinally(s.scope, s.cleanup, e, walk.k)))
    ensures TrySite(walk.site, s.scope).Depths() == walk.site.Depths().InTry(s.scope)
    ensures EnvAt(walk.program, TrySite(walk.site, s.scope)) == e
  {
    hide WorldOk, AfterSeq, ScopesInSeq, ActiveOk, FreshFor, EndOk, Reserved, TransfersOk, Grown, Follows;
    hide ThroughFinally;
    var inner := TrySite(walk.site, s.scope);
    var k' := ThroughFinally(s.scope, s.cleanup, e, walk.k);
    FollowsKept(walk.program, walk.start, w, walk.site, walk.k);
    TryFollows(walk.program, w, walk.site, s.scope, s.cleanup, e, walk.k);
    assert Apart(inner, walk.keys, ScopesInSeq(s.body)) && ScopesPlaced(walk.program, inner);
    NoNewKeys(walk.start, w);
    hide CanWalk, Holding, Apart, ScopesPlaced, NewKeys;
    InnerCanWalk(walk, active, future, w, [], b, s.body, e, inner, k', {}, Plain);
  }

  ghost predicate ProtectedEnd(walk: Walk, w: World, f: ScopeId, b: BlockId, next: Future) {
    && w.Has(b)
    && (w.notes[b].scopes == walk.site.scopes || w.notes[b].scopes == walk.site.scopes + [f])
    && Feeds(w.graph.Content(b), next, w.notes[b].future)
    && (b == walk.cur || b >= |walk.start.notes|)
  }

  /** What is known once the protected body has been walked. */
  ghost predicate Protected(walk: Walk, w: World, s: Stmt, e: Env, flow: Flow)
    requires s.TryFinally?
  {
    && TransfersOk(w, TrySite(walk.site, s.scope), flow.transfers, ThroughFinally(s.scope, s.cleanup, e, walk.k))
    && (flow.normal.Some? ==>
       ProtectedEnd(walk, w, s.scope, flow.normal.value, ThroughFinally(s.scope, s.cleanup, e, walk.k)(Normal)))
    && SimulatesSeq(w.graph, s.body, e, walk.cur, walk.start.graph.Content(walk.cur), flow)
    && Predicted(flow, CompletesSeq(s.body), OutsSeq(s.body, e))
  }

  lemma ProtectedGrown(walk: Walk, w: World, w': World, touched: set<BlockId>, s: Stmt, e: Env, flow: Flow)
    requires s.TryFinally? && GraphOk(w) && Extends(w, w', touched) && GraphOk(w') && Grown(w.graph, w'.graph, {})
    requires Protected(walk, w, s, e, flow)
    ensures Protected(walk, w', s, e, flow)
  {
    hide SimulatesSeq, Predicted, ThroughFinally, Feeds;
    TransfersKept(w, w', touched, TrySite(walk.site, s.scope), flow.transfers,
                  ThroughFinally(s.scope, s.cleanup, e, walk.k));
    SimulatesSeqGrown(w.graph, w'.graph, s.body, e, walk.cur, walk.start.graph.Content(walk.cur), flow);
  }

  lemma EmptyProtected(walk: Walk, s: Stmt, e: Env, future: Future)
    requires s.TryFinally? && s.body == [] && Holding(walk, walk.start, [])
    requires EndOk(walk.start, walk.site, walk.cur, future)
    requires AfterSeq([], e, ThroughFinally(s.scope, s.cleanup, e, walk.k)) <= future
    ensures Protected(walk, walk.start, s, e, Flow(Some(walk.cur), []))
  {
    hide AfterSeq, WorldOk, Extends;
    var k' := ThroughFinally(s.scope, s.cleanup, e, walk.k);
    EmptySimulates(walk.start.graph, e, walk.cur);
    AfterSeqEmpty(e, k');
    FeedsWeaken(walk.start.graph.Content(walk.cur), k'(Normal), future, walk.start.notes[walk.cur].future);
  }

  lemma ProtectedDone(
    walk: Walk, w0: World, w1: World, inner: Walk, b: BlockId, note: Note, s: Stmt, e: Env, flow: Flow)
    requires s.TryFinally? && Holding(walk, w0, []) && w0.cache == walk.start.cache && Reserved(walk, w0, b, note)
    requires inner == walk.(start := w0, cur := b, scopes := ScopesInSeq(s.body), site := TrySite(walk.site, s.scope),
                            k := ThroughFinally(s.scope, s.cleanup, e, walk.k))
    requires ScopesInSeq(s.body) <= walk.scopes
    requires w0.graph.Links(walk.cur, [], b) && walk.cur in w0.closed && w0.Has(walk.cur)
    requires w0.graph.Content(walk.cur) == walk.start.graph.Content(walk.cur)
    requires Finished(inner, w1, flow) && SimulatesSeq(w1.graph, s.body, e, b, [], flow)
    requires Predicted(flow, CompletesSeq(s.body), OutsSeq(s.body, e))
    ensures Holding(walk, w1, []) && NewKeys(walk.start, w1, ScopesInSeq(s.body))
    ensures Protected(walk, w1, s, e, flow)
  {
    hide CacheOk, BasesOk, ReturnsOk, OriginsOk, Labelled, Grown, TransfersOk, EdgeOk, Feeds, SimulatesSeq;
    hide Predicted, ScopesInSeq, ThroughFinally;
    HoldingWalk(walk, w0, [], inner, w1, flow.transfers);
    assert inner.Touched() == {b};
    EdgeGrown(w0.graph, w1.graph, {b}, walk.cur, [], b);
    ContentKept(w0, w1, {b}, walk.cur);
    EntrySimulates(w1.graph, s.body, e, walk.cur, b, flow);
    NoNewKeys(walk.start, w0);
    NewKeysTrans(walk.start, w0, w1, {}, ScopesInSeq(s.body));
    assert {} + ScopesInSeq(s.body) == ScopesInSeq(s.body);
  }

  // ---- Return identities

  function WithReturn(w: World, r: ReturnKey): World {
    w.(returnIds := w.returnIds[r := w.nextReturn], nextReturn := w.nextReturn + 1)
  }

  lemma ReturnStep(walk: Walk, w: World, ts: seq<Transfer>, r: ReturnKey)
    requires Holding(walk, w, ts) && r !in w.returnIds
    ensures Holding(walk, WithReturn(w, r), ts) && Extends(w, WithReturn(w, r), {})
  {
    hide GraphOk, Labelled, CacheOk, OriginsOk, TransfersOk, Extends, NewKeys;
    SideStep(walk, w, WithReturn(w, r), ts);
  }

  // ---- Finalizer bodies

  ghost function CleanupSite(site: Site): Site {
    site.(levels := site.levels + 1)
  }

  /** The cache key of the finalizer of `f` for a continuation. */
  function BodyKey(f: ScopeId, continuation: Option<ContinuationKey>, active: Option<nat>, site: Site): CacheKey {
    CacheKey(f, continuation, if continuation.None? then active else None, site)
  }

  /** A finalizer body that `walk` can enter with `o` pending. */
  ghost predicate Finalizes(walk: Walk, w: World, f: ScopeId, cleanup: seq<Stmt>, e: Env, o: Outcome, c: CachedBody) {
    && w.Has(c.entry)
    && w.notes[c.entry] == Note(Finalized(f, o, cleanup, e, walk.k), walk.site.scopes, FinallyHandler(f, o))
    && TransfersOk(w, walk.site, c.flow.transfers, walk.k)
    && (c.flow.normal.Some? ==> EndOk(w, walk.site, c.flow.normal.value, walk.k(o)) && c.flow.normal.value in w.closed)
    && SimulatesSeq(w.graph, cleanup, e, c.entry, [Cleanup(f, o)], c.flow)
    && Predicted(c.flow, CompletesSeq(cleanup), OutsSeq(cleanup, e))
  }

  lemma FinalizesKept(
    walk: Walk, w: World, w': World, touched: set<BlockId>, f: ScopeId, cleanup: seq<Stmt>, e: Env, o: Outcome,
    c: CachedBody)
    requires GraphOk(w) && Extends(w, w', touched) && GraphOk(w') && Finalizes(walk, w, f, cleanup, e, o, c)
    ensures Finalizes(walk, w', f, cleanup, e, o, c)
  {
    hide SimulatesSeq, Predicted, Finalized, Feeds, Grown;
    TransfersKept(w, w', touched, walk.site, c.flow.transfers, walk.k);
    assert forall t :: t in c.flow.transfers ==> TransferOk(w, walk.site, t, walk.k);
    SimulatesSeqKept(w, w', touched, cleanup, e, c.entry, [Cleanup(f, o)], c.flow);
    if c.flow.normal.Some? {
      ContentKept(w, w', touched, c.flow.normal.value);
    }
  }

  /** Resuming a transfer from a continuation that follows the site is resuming it at the site. */
  lemma ResumeCong(p: Program, w: World, site: Site, k: Kont, f: ScopeId, o: Outcome, cleanup: seq<Stmt>, e: Env)
    requires Follows(p, w, site, k) && !o.Normal?
    ensures forall o': Outcome :: Resume(k, o)(o') == Resume(PendingAt(p, w, site), o)(o')
    ensures Finalized(f, o, cleanup, e, k) == Finalized(f, o, cleanup, e, PendingAt(p, w, site))
  {
    hide PendingFuture, Finalized;
    forall o': Outcome ensures Resume(k, o)(o') == Resume(PendingAt(p, w, site), o)(o') {
    }
    FinalizedCong(f, o, cleanup, e, k, PendingAt(p, w, site));
  }

  /** A memoised body for an equal key is a finalizer for this walk, and the other way round. */
  lemma CachedFinalizes(walk: Walk, w: World, f: ScopeId, cleanup: seq<Stmt>, e: Env, key: CacheKey, c: CachedBody)
    requires key.continuation.Some? && key.scope == f && key.site == walk.site && e == EnvAt(walk.program, walk.site)
    requires Follows(walk.program, w, walk.site, walk.k)
    requires f in walk.program.placements.cleanups && walk.program.placements.cleanups[f].cleanup == cleanup
    ensures CachedOk(walk.program, w, key, c) <==>
            Finalizes(walk, w, f, cleanup, e, OutcomeOf(key.continuation.value), c)
  {
    var o := OutcomeOf(key.continuation.value);
    var k1 := Resume(walk.k, o);
    var k2 := Resume(PendingAt(walk.program, w, walk.site), o);
    ResumeCong(walk.program, w, walk.site, walk.k, f, o, cleanup, e);
    hide Finalized, SimulatesSeq, Predicted, Follows, PendingFuture, Feeds, CompletesSeq, OutsSeq, EnvAt;
    if CachedOk(walk.program, w, key, c) {
      FlowOkCong(w, walk.site, c.flow, k2, k1);
      TransfersCong(w, walk.site, c.flow.transfers, k1, walk.k);
    }
    if Finalizes(walk, w, f, cleanup, e, o, c) {
      TransfersCong(w, walk.site, c.flow.transfers, walk.k, k1);
      FlowOkCong(w, walk.site, c.flow, k1, k2);
    }
  }

  /**
    A finalizer that is about to be walked for the first time finds no memoised body that
    returns normally into it: such a body was created inside a walk for this very key.
    */
  lemma FinalizerFresh(p: Program, w: World, keys: set<CacheKey>, key: CacheKey, r: ReturnKey, scopes: set<ScopeId>)
    requires OriginsOk(p, w, keys) && ReturnsOk(w)
    requires r in w.returnIds && KeyMatches(key, r) && AtPlacement(p, key) && key !in w.cache && key !in keys
    ensures FreshFor(w, CleanupSite(key.site), Some(w.returnIds[r]), scopes)
  {
    forall other | other in w.cache && other.continuation.None? && other.scope in scopes
        && other.caller == Some(w.returnIds[r])
      ensures !SitePrefix(CleanupSite(key.site), other.site)
    {
      assert OriginOk(p, w, keys, other);
      var first := w.origin[other];
      var r0 :| r0 in w.returnIds && w.returnIds[r0] == w.returnIds[r] && KeyMatches(first, r0);
      assert r0 == r;
      if SitePrefix(key.site, other.site) {
        SamePrefix(first.site, key.site, other.site);
      }
    }
  }

  lemma SamePrefix(a: Site, b: Site, c: Site)
    requires SitePrefix(a, c) && SitePrefix(b, c) && a.Depths() == b.Depths()
    ensures a == b
  {
    assert |a.loops| == |b.loops| && |a.dispatch| == |b.dispatch| && |a.handled| == |b.handled|;
    assert a.scopes == c.scopes[..|a.scopes|] == b.scopes;
    assert a.loops == c.loops[..|a.loops|] == b.loops;
    assert a.dispatch == c.dispatch[..|a.dispatch|] == b.dispatch;
    assert a.handled == c.handled[..|a.handled|] == b.handled;
  }

  /** A finalizer that completes normally into its caller is never found in the cache. */
  lemma NormalMisses(walk: Walk, active: Option<nat>, f: ScopeId)
    requires FreshFor(walk.start, walk.site, active, walk.scopes) && f in walk.scopes
    ensures BodyKey(f, None, active, walk.site) !in walk.start.cache
  {
    assert SitePrefix(walk.site, walk.site);
  }

  lemma CleanupFollows(p: Program, w: World, site: Site, k: Kont, o: Outcome)
    requires Follows(p, w, site, k)
    ensures Follows(p, w, CleanupSite(site), Resume(k, o))
  {
    forall o': Outcome | !o'.Normal? ensures Resume(k, o)(o') == PendingFuture(p, w, CleanupSite(site), o') {
      assert PendingFuture(p, w, CleanupSite(site), o') == PendingFuture(p, w, site, o');
    }
  }

  lemma OriginsMore(p: Program, w: World, keys: set<CacheKey>, more: set<CacheKey>)
    requires OriginsOk(p, w, keys) && keys <= more
    ensures OriginsOk(p, w, more)
  {
    forall key | key in w.cache && key.continuation.None? ensures OriginOk(p, w, more, key) {
      assert OriginOk(p, w, keys, key);
    }
  }

  ghost function FinalizerWalk(walk: Walk, w: World, b: BlockId, key: CacheKey, cleanup: seq<Stmt>, o: Outcome): Walk {
    Walk(walk.program, w, b, ScopesInSeq(cleanup), walk.keys + {key}, CleanupSite(walk.site), Resume(walk.k, o))
  }

  /** A new block for the cleanup of `f`, entered with `o` pending. */
  ghost predicate FinalizerBlock(walk: Walk, w: World, b: BlockId, f: ScopeId, o: Outcome, cleanup: seq<Stmt>, e: Env) {
    && w.Has(b) && b >= |walk.start.notes| && b !in w.closed
    && w.graph.blocks[b] == BasicBlock(FinallyHandler(f, o), [])
    && w.notes[b] == Note(Finalized(f, o, cleanup, e, walk.k), walk.site.scopes, FinallyHandler(f, o))
  }

  lemma FinalizerContent(walk: Walk, w: World, b: BlockId, f: ScopeId, o: Outcome, cleanup: seq<Stmt>, e: Env)
    requires FinalizerBlock(walk, w, b, f, o, cleanup, e)
    ensures w.graph.Content(b) == [Cleanup(f, o)] && w.graph.Stmts(b) == []
  {}

  lemma FinalizerCanWalk(
    walk: Walk, active: Option<nat>, future: Future, w: World, ts: seq<Transfer>, b: BlockId,
    key: CacheKey, r: ReturnKey, cleanup: seq<Stmt>, e: Env, o: Outcome)
    requires CanWalk(walk, active, future) && Holding(walk, w, ts) && e == EnvAt(walk.program, walk.site)
    requires FinalizerBlock(walk, w, b, key.scope, o, cleanup, e)
    requires r in w.returnIds && KeyMatches(key, r) && key.site == walk.site && AtPlacement(walk.program, key)
    requires key !in w.cache && key.scope in walk.scopes
    requires ScopesInSeq(cleanup) <= walk.scopes && key.scope !in ScopesInSeq(cleanup)
    ensures CanWalk(FinalizerWalk(walk, w, b, key, cleanup, o), Some(w.returnIds[r]),
                    AfterSeq(cleanup, e, Resume(walk.k, o)))
    ensures CleanupSite(walk.site).Depths() == walk.site.Depths().InCleanup()
    ensures EnvAt(walk.program, CleanupSite(walk.site)) == e
  {
    hide CacheOk, BasesOk, AfterSeq, Finalized, ScopesInSeq, Grown, TransfersOk, Follows, KeyMatches, AtPlacement, Refs;
    var inner := FinalizerWalk(walk, w, b, key, cleanup, o);
    FinalizerContent(walk, w, b, key.scope, o, cleanup, e);
    FollowsKept(walk.program, walk.start, w, walk.site, walk.k);
    CleanupFollows(walk.program, w, walk.site, walk.k, o);
    OriginsMore(walk.program, w, walk.keys, inner.keys);
    FinalizerFresh(walk.program, w, walk.keys, key, r, ScopesInSeq(cleanup));
    FinalizedFeeds(key.scope, o, cleanup, e, walk.k);
    assert ReturnsAs(w, key, w.returnIds[r]);
    assert key in inner.keys && SitePrefix(key.site, inner.site);
    hide OriginsOk, Labelled, ReturnsOk, FreshFor, GraphOk, Feeds, ReturnsAs;
    assert ActiveOk(walk.program, w, inner.site, Some(w.returnIds[r]), inner.keys);
    assert Apart(inner.site, inner.keys, inner.scopes);
  }

  /** The new body is a finalizer once its end is closed. */
  lemma WalkedFinalizes(
    walk: Walk, w: World, b: BlockId, key: CacheKey, cleanup: seq<Stmt>, e: Env, o: Outcome, w1: World,
    w2: World, flow: Flow)
    requires Finished(FinalizerWalk(walk, w, b, key, cleanup, o), w1, flow)
    requires Holding(FinalizerWalk(walk, w, b, key, cleanup, o), w2, flow.transfers)
    requires w2 == if flow.normal.Some? then w1.Closing(flow.normal.value) else w1
    requires w.Has(b)
    requires w.notes[b]
             == Note(Finalized(key.scope, o, cleanup, e, walk.k), walk.site.scopes, FinallyHandler(key.scope, o))
    requires SimulatesSeq(w1.graph, cleanup, e, b, [Cleanup(key.scope, o)], flow)
    requires Predicted(flow, CompletesSeq(cleanup), OutsSeq(cleanup, e))
    ensures Finalizes(walk, w2, key.scope, cleanup, e, o, CachedBody(b, flow))
  {
    hide CacheOk, BasesOk, ReturnsOk, OriginsOk, Labelled, EdgeOk, Finalized, SimulatesSeq, Predicted, Feeds;
    hide Grown, CompletesSeq, OutsSeq, ScopesInSeq;
    forall t | t in flow.transfers ensures TransferOk(w2, walk.site, t, walk.k) {
      assert TransferOk(w2, CleanupSite(walk.site), t, Resume(walk.k, o));
    }
  }

  /** The body is recorded under its key; `from` is the finalizer walk that it returns into. */
  function Memoised(w: World, key: CacheKey, c: CachedBody, from: Option<CacheKey>): World {
    w.(cache := w.cache[key := c], origin := if from.Some? then w.origin[key := from.value] else w.origin)
  }

  /** Who a body returns into: nobody, or a finalizer walk that is still going on. */
  ghost predicate ReturnsInto(p: Program, w: World, keys: set<CacheKey>, key: CacheKey, from: Option<CacheKey>) {
    key.continuation.None? && key.caller.Some? ==>
      && from.Some?
      && from.value in keys
      && ReturnsAs(w, from.value, key.caller.value)
      && SitePrefix(from.value.site, key.site)
      && AtPlacement(p, from.value)
  }

  lemma MemoisedNew(
    walk: Walk, w0: World, b: BlockId, key: CacheKey, cleanup: seq<Stmt>, o: Outcome, w: World,
    us: seq<Transfer>)
    requires Holding(FinalizerWalk(walk, w0, b, key, cleanup, o), w, us) && key !in w0.cache
    requires key.scope !in ScopesInSeq(cleanup)
    ensures key !in w.cache && key !in w.origin
  {
    hide CacheOk, BasesOk, ReturnsOk, GraphOk, TransfersOk, Extends, ScopesInSeq, OriginOk;
  }

  lemma MemoisedOrigins(p: Program, w: World, keys: set<CacheKey>, key: CacheKey, c: CachedBody, from: Option<CacheKey>)
    requires OriginsOk(p, w, keys + {key}) && key !in w.cache && key !in w.origin && ReturnsInto(p, w, keys, key, from)
    ensures OriginsOk(p, Memoised(w, key, c, from), keys)
  {
    var w' := Memoised(w, key, c, from);
    forall x | x in w'.cache && x.continuation.None? ensures OriginOk(p, w', keys, x) {
      if x.caller.Some? {
        assert x != key ==> OriginOk(p, w, keys + {key}, x);
        var id := x.caller.value;
        var y := w'.origin[x];
        assert ReturnsAs(w, y, id);
        var r :| r in w.returnIds && w.returnIds[r] == id && KeyMatches(y, r);
        assert r in w'.returnIds;
      }
    }
  }

  lemma MemoisedCache(p: Program, w: World, key: CacheKey, c: CachedBody, from: Option<CacheKey>)
    requires GraphOk(w) && CacheOk(p, w) && key !in w.cache && key !in w.origin
    requires key.continuation.Some? ==> CachedOk(p, w, key, c)
    ensures Extends(w, Memoised(w, key, c, from), {}) && GraphOk(Memoised(w, key, c, from))
    ensures CacheOk(p, Memoised(w, key, c, from))
  {
    var w' := Memoised(w, key, c, from);
    forall x | x in w'.graph.edges ensures EdgeOk(w', x) {
      assert EdgeOk(w, x);
    }
    hide CachedOk, EdgeOk;
    forall x | x in w'.cache && x.continuation.Some? ensures CachedOk(p, w', x, w'.cache[x]) {
      CachedKept(p, w, w', {}, x, w'.cache[x]);
    }
  }

  /** Recording the new body ends its walk; what the outer walk had is kept. */
  lemma MemoiseStep(
    walk: Walk, w00: World, ts: seq<Transfer>, w0: World, b: BlockId, key: CacheKey, cleanup: seq<Stmt>, o: Outcome,
    w: World, us: seq<Transfer>, c: CachedBody, from: Option<CacheKey>)
    requires Holding(walk, w00, ts) && Extends(w00, w0, {}) && b >= |w00.notes|
    requires Holding(FinalizerWalk(walk, w0, b, key, cleanup, o), w, us)
    requires key !in w0.cache && key.scope !in ScopesInSeq(cleanup) && w0.cache == w00.cache
    requires ScopesInSeq(cleanup) <= walk.scopes && key.scope in walk.scopes
    requires key.continuation.Some? ==> CachedOk(walk.program, w, key, c)
    requires ReturnsInto(walk.program, w, walk.keys, key, from)
    ensures Holding(walk, Memoised(w, key, c, from), ts) && Extends(w00, Memoised(w, key, c, from), {})
    ensures Extends(w, Memoised(w, key, c, from), {})
  {
    hide WorldOk, GraphOk, CachedOk, ScopesInSeq, ReturnsInto, TransfersOk, Extends, NewKeys, SiteKnown;
    var inner := FinalizerWalk(walk, w0, b, key, cleanup, o);
    var w' := Memoised(w, key, c, from);
    MemoisedKeys(walk.start, w00, w0, w, walk.scopes, ScopesInSeq(cleanup), key, c, from);
    MemoisedNew(walk, w0, b, key, cleanup, o, w, us);
    MemoisedWorld(walk.program, w, walk.keys, key, c, from);
    HoldingGraph(walk, w00, ts);
    HoldingGraph(inner, w, us);
    MemoisedGrows(walk, w00, w0, inner, w, w');
    TransfersKept(w00, w', {}, walk.site, ts, walk.k);
    ExtendsTrans(walk.start, w00, w', walk.Touched(), {}, walk.Touched());
  }

  lemma MemoisedWorld(p: Program, w: World, keys: set<CacheKey>, key: CacheKey, c: CachedBody, from: Option<CacheKey>)
    requires WorldOk(p, w, keys + {key}) && key !in w.cache && key !in w.origin && ReturnsInto(p, w, keys, key, from)
    requires key.continuation.Some? ==> CachedOk(p, w, key, c)
    ensures WorldOk(p, Memoised(w, key, c, from), keys) && Extends(w, Memoised(w, key, c, from), {})
    ensures GraphOk(Memoised(w, key, c, from))
  {
    hide GraphOk, CacheOk, OriginsOk, CachedOk, ReturnsInto, Extends;
    LabelsKept(p, w, Memoised(w, key, c, from));
    hide Labelled;
    MemoisedOrigins(p, w, keys, key, c, from);
    MemoisedCache(p, w, key, c, from);
  }

  lemma MemoisedKeys(
    start: World, w00: World, w0: World, w: World, scopes: set<ScopeId>, inner: set<ScopeId>, key: CacheKey,
    c: CachedBody, from: Option<CacheKey>)
    requires NewKeys(start, w00, scopes) && w0.cache == w00.cache && NewKeys(w0, w, inner) && inner <= scopes
    requires key.scope in scopes
    ensures NewKeys(start, Memoised(w, key, c, from), scopes)
  {}

  lemma MemoisedGrows(walk: Walk, w00: World, w0: World, inner: Walk, w: World, w': World)
    requires GraphOk(w00) && GraphOk(w0) && GraphOk(w) && inner.start == w0 && inner.cur >= |w00.notes|
    requires Extends(w00, w0, {}) && Extends(w0, w, inner.Touched()) && Extends(w, w', {})
    ensures Extends(w00, w', {})
  {
    hide GraphOk, Extends;
    ExtendsTrans(w00, w0, w, {}, inner.Touched(), {});
    ExtendsTrans(w00, w, w', {}, {}, {});
  }

  /** The bodies recorded since: for this key, or for scopes inside the cleanup. */
  ghost predicate NewBodies(
    cache: map<CacheKey, CachedBody>, cache': map<CacheKey, CachedBody>, key: CacheKey, scopes: set<ScopeId>)
  {
    forall x :: x in cache' && x !in cache ==> x == key || x.scope in scopes
  }

  /** The finalizer walk that a new body returns into. */
  ghost function Caller(p: Program, w: World, keys: set<CacheKey>, key: CacheKey): (from: Option<CacheKey>)
    requires key.continuation.None? && key.caller.Some? ==>
               exists x :: x in keys && ReturnsAs(w, x, key.caller.value) && SitePrefix(x.site, key.site)
                   && AtPlacement(p, x)
    ensures ReturnsInto(p, w, keys, key, from)
  {
    if key.continuation.None? && key.caller.Some? then
      var x :| x in keys && ReturnsAs(w, x, key.caller.value) && SitePrefix(x.site, key.site) && AtPlacement(p, x);
      Some(x)
    else None
  }

  lemma CallerKnown(walk: Walk, active: Option<nat>, future: Future, w: World, key: CacheKey)
    requires CanWalk(walk, active, future) && Keeps(walk.start.returnIds, w.returnIds)
    requires key == BodyKey(key.scope, key.continuation, active, walk.site)
    ensures key.continuation.None? && key.caller.Some? ==>
               exists x :: x in walk.keys && ReturnsAs(w, x, key.caller.value) && SitePrefix(x.site, key.site)
                   && AtPlacement(walk.program, x)
  {
    hide WorldOk, Follows, EndOk, FreshFor, Apart, ScopesPlaced;
    ActiveKept(walk.program, walk.start, w, walk.site, active, walk.keys);
  }

  lemma PlacedHere(p: Program, key: CacheKey, cleanup: seq<Stmt>)
    requires key.scope in p.placements.cleanups
    requires p.placements.cleanups[key.scope] == Placement(cleanup, key.site.Depths())
    ensures AtPlacement(p, key)
  {}

  lemma FinishedEnd(walk: Walk, w: World, flow: Flow)
    requires Finished(walk, w, flow)
    ensures Holding(walk, w, flow.transfers)
    ensures flow.normal.Some? ==> w.Has(flow.normal.value) && walk.Owns(w, flow.normal.value)
  {}

  lemma FinalizerFacts(
    walk: Walk, active: Option<nat>, future: Future, w00: World, ts: seq<Transfer>, w0: World, inner: Walk,
    w2: World, us: seq<Transfer>,
    key: CacheKey, cleanup: seq<Stmt>, e: Env, c: CachedBody)
    requires CanWalk(walk, active, future) && Holding(walk, w00, ts) && Extends(w00, w0, {})
    requires e == EnvAt(walk.program, walk.site)
    requires inner == FinalizerWalk(walk, w0, c.entry, key, cleanup, Suspends(key.continuation))
    requires Holding(inner, w2, us)
    requires key == BodyKey(key.scope, key.continuation, active, walk.site)
    requires key.scope in walk.program.placements.cleanups
    requires walk.program.placements.cleanups[key.scope].cleanup == cleanup
    requires Finalizes(walk, w2, key.scope, cleanup, e, Suspends(key.continuation), c)
    requires key.scope !in ScopesInSeq(cleanup)
    ensures key.continuation.Some? ==> CachedOk(walk.program, w2, key, c)
    ensures key.continuation.None? && key.caller.Some? ==>
               exists x :: x in walk.keys && ReturnsAs(w2, x, key.caller.value) && SitePrefix(x.site, key.site)
                   && AtPlacement(walk.program, x)
    ensures NewBodies(w0.cache, w2.cache[key := c], key, ScopesInSeq(cleanup))
  {
    hide WorldOk, GraphOk, TransfersOk, SimulatesSeq, Predicted, AfterSeq, ScopesInSeq, EndOk, ActiveOk;
    hide FreshFor, Apart, ScopesPlaced, Finalizes, CachedOk, Follows;
    assert Keeps(walk.start.bases, w2.bases) && Keeps(walk.start.returnIds, w2.returnIds);
    FollowsKept(walk.program, walk.start, w2, walk.site, walk.k);
    CallerKnown(walk, active, future, w2, key);
    if key.continuation.Some? {
      CachedFinalizes(walk, w2, key.scope, cleanup, e, key, c);
    }
  }

  lemma HitFinalizes(
    walk: Walk, active: Option<nat>, future: Future, w: World, ts: seq<Transfer>, f: ScopeId,
    cleanup: seq<Stmt>, e: Env, key: CacheKey)
    requires CanWalk(walk, active, future) && Holding(walk, w, ts) && e == EnvAt(walk.program, walk.site)
    requires key.continuation.Some? && key.scope == f && key.site == walk.site && key in w.cache
    requires f in walk.program.placements.cleanups && walk.program.placements.cleanups[f].cleanup == cleanup
    ensures Finalizes(walk, w, f, cleanup, e, Suspends(key.continuation), w.cache[key])
  {
    hide GraphOk, BasesOk, ReturnsOk, OriginsOk, Labelled, TransfersOk, EndOk, ActiveOk, FreshFor, Apart;
    hide ScopesPlaced, Finalizes, CachedOk, Follows;
    FollowsKept(walk.program, walk.start, w, walk.site, walk.k);
    assert CachedOk(walk.program, w, key, w.cache[key]);
    CachedFinalizes(walk, w, f, cleanup, e, key, w.cache[key]);
  }

  lemma SameBodies(cache: map<CacheKey, CachedBody>, key: CacheKey, scopes: set<ScopeId>)
    ensures NewBodies(cache, cache, key, scopes)
  {}
}
