/** `try..except`: the guarded body, the handlers, and the dispatch between them. */
module TryExceptLaws {
  import opened ExceptionTypes
  import opened PascalSyntax
  import opened StructuredRuns
  import opened Continuations
  import opened ControlFlowGraph
  import opened PendingTransfers
  import opened ScopePlacement
  import opened BuilderWorld
  import opened BuilderLaws
  import opened SequenceLaws
  import opened BranchLaws
  import opened LoopLaws

  // ---- Walks in a deeper context

  ghost function GuardSite(site: Site, id: nat): Site {
    site.(dispatch := site.dispatch + [id], levels := site.levels + 1)
  }

  ghost function HandlerSite(site: Site, fact: Fact): Site {
    site.(handled := site.handled + [fact], levels := site.levels + 1)
  }

  /** Handlers opened later do not change what the cleanups of open scopes see. */
  lemma {:induction false} UnwindHandled(
    p: Program, inLoop: bool, scopes: seq<ScopeId>, handled: seq<Fact>, more: seq<Fact>, k: Kont, o: Outcome)
    requires forall f :: f in scopes ==> f in p.placements.cleanups && p.placements.cleanups[f].at.handled <= |handled|
    ensures Unwind(p, inLoop, scopes, handled + more, k, o) == Unwind(p, inLoop, scopes, handled, k, o)
    decreases |scopes|
  {
    if scopes != [] {
      var outer := scopes[..|scopes| - 1];
      var f := scopes[|scopes| - 1];
      assert f in scopes;
      var n := p.placements.cleanups[f].at.handled;
      assert (handled + more)[..n] == handled[..n];
      var k1 := (o': Outcome) => Unwind(p, inLoop, outer, handled + more, k, o');
      var k2 := (o': Outcome) => Unwind(p, inLoop, outer, handled, k, o');
      forall o': Outcome ensures Resume(k1, o)(o') == Resume(k2, o)(o') {
        UnwindHandled(p, inLoop, outer, handled, more, k, if o'.Normal? then o else o');
      }
      FinalizedCong(f, o, p.placements.cleanups[f].cleanup, Env(p.index, inLoop, LastFact(handled[..n])), k1, k2);
    }
  }

  lemma HandlerFollows(p: Program, w: World, site: Site, fact: Fact, k: Kont)
    requires Follows(p, w, site, k) && ScopesPlaced(p, site)
    ensures Follows(p, w, HandlerSite(site, fact), k)
  {
    var inner := HandlerSite(site, fact);
    var base := w.bases[(site.loops, site.dispatch)];
    forall o: Outcome | !o.Normal? ensures k(o) == PendingFuture(p, w, inner, o) {
      UnwindHandled(p, site.loops != [], site.scopes[base.scopes..], site.handled, [fact], base.kont, o);
    }
  }

  // ---- The guarded body

  lemma DispatchFresh(w: World, loops: seq<LoopFrame>, dispatch: seq<nat>)
    requires BasesOk(w)
    ensures (loops, dispatch + [w.nextDispatch]) !in w.bases
  {
    var key := (loops, dispatch + [w.nextDispatch]);
    assert key.1[|dispatch|] == w.nextDispatch;
    assert w.nextDispatch in key.1;
  }

  lemma GuardBase(walk: Walk, active: Option<nat>, future: Future, w: World, id: nat, k': Kont)
    requires CanWalk(walk, active, future) && Holding(walk, w, []) && w.bases == walk.start.bases
    requires id == walk.start.nextDispatch && id < w.nextDispatch
    ensures (walk.site.loops, walk.site.dispatch + [id]) !in w.bases
    ensures Holding(walk, WithBase(w, (walk.site.loops, walk.site.dispatch + [id]), Base(k', |walk.site.scopes|)), [])
    ensures Extends(w, WithBase(w, (walk.site.loops, walk.site.dispatch + [id]), Base(k', |walk.site.scopes|)), {})
  {
    var key := (walk.site.loops, walk.site.dispatch + [id]);
    DispatchFresh(walk.start, walk.site.loops, walk.site.dispatch);
    assert (walk.site.loops, walk.site.dispatch) in w.bases;
    hide CacheOk, ReturnsOk, OriginsOk, Labelled, TransfersOk, ActiveOk, FreshFor, Apart, EndOk, Feeds, PendingFuture;
    assert walk.start.notes <= w.notes;
    hide Extends;
    forall f | f in key.0 ensures FrameBelow(f, |w.notes|) {
    }
    forall d | d in key.1 ensures d < w.nextDispatch {
      if d != id {
        assert d in walk.site.dispatch;
      }
    }
    BaseStep(walk, w, [], key, Base(k', |walk.site.scopes|));
  }

  /** The next dispatch identity is taken. */
  function TakeDispatch(w: World): World {
    w.(nextDispatch := w.nextDispatch + 1)
  }

  lemma DispatchStep(walk: Walk, w: World, ts: seq<Transfer>)
    requires Holding(walk, w, ts)
    ensures Holding(walk, TakeDispatch(w), ts) && Extends(w, TakeDispatch(w), {})
  {
    hide GraphOk, Labelled, CacheOk, OriginsOk, TransfersOk, Extends, NewKeys;
    SideStep(walk, w, TakeDispatch(w), ts);
  }

  /** Directly inside a new base, its continuation is the one to follow. */
  lemma BaseFollows(p: Program, w: World, site: Site, k: Kont)
    requires (site.loops, site.dispatch) in w.bases && w.bases[(site.loops, site.dispatch)] == Base(k, |site.scopes|)
    ensures Follows(p, w, site, k)
  {
    assert site.scopes[|site.scopes|..] == [];
  }

  lemma GuardCanWalk(
    walk: Walk, active: Option<nat>, future: Future, w: World, b: BlockId, body: seq<Stmt>, e: Env, id: nat, k': Kont)
    requires CanWalk(walk, active, future) && Holding(walk, w, [])
    requires (walk.site.loops, walk.site.dispatch + [id]) in w.bases
    requires w.bases[(walk.site.loops, walk.site.dispatch + [id])] == Base(k', |walk.site.scopes|)
    requires Reserved(walk, w, b, Note(AfterSeq(body, e, k'), walk.site.scopes, Plain))
    requires w.cache == walk.start.cache && ScopesInSeq(body) <= walk.scopes
    ensures CanWalk(walk.(start := w, cur := b, scopes := ScopesInSeq(body), site := GuardSite(walk.site, id),
                          k := k'), active, AfterSeq(body, e, k'))
    ensures GuardSite(walk.site, id).Depths() == walk.site.Depths().InGuarded()
  {
    hide Holding, AfterSeq, ScopesInSeq, Follows, WorldOk, ActiveOk, FreshFor, EndOk;
    var inner := GuardSite(walk.site, id);
    BaseFollows(walk.program, w, inner, k');
    assert Apart(inner, walk.keys, ScopesInSeq(body)) && ScopesPlaced(walk.program, inner);
    NoNewKeys(walk.start, w);
    hide CanWalk, Holding, AfterSeq, ScopesInSeq, Follows, Apart, ScopesPlaced, Reserved, NewKeys;
    InnerCanWalk(walk, active, future, w, [], b, body, e, inner, k', {}, Plain);
  }

  /** The body of a `try` entered through one edge. */
  lemma EntrySimulates(g: Graph, body: seq<Stmt>, e: Env, cur: BlockId, b: BlockId, flow: Flow)
    requires cur < |g.blocks| && g.Links(cur, [], b) && SimulatesSeq(g, body, e, b, [], flow)
    ensures SimulatesSeq(g, body, e, cur, g.Content(cur), flow)
  {
    hide Lands, IsRunSeq;
    ReachesHere(g, cur);
    forall r | IsRunSeq(body, e, r) ensures Lands(g, cur, g.Content(cur) + Events(r), r.out, flow) {
      assert [] + Events(r) == Events(r);
      LandsVia(g, cur, g.Content(cur), cur, [], b, Events(r), r.out, flow);
      assert g.Content(cur) + [] == g.Content(cur);
    }
  }

  lemma EmptySimulates(g: Graph, e: Env, cur: BlockId)
    requires cur < |g.blocks|
    ensures SimulatesSeq(g, [], e, cur, g.Content(cur), Flow(Some(cur), []))
    ensures Predicted(Flow(Some(cur), []), CompletesSeq([]), OutsSeq([], e))
  {
    ReachesHere(g, cur);
    assert g.Content(cur) + [] == g.Content(cur);
  }

  /** What is known once the guarded body has been walked. */
  ghost predicate Guarded(walk: Walk, w: World, site: Site, body: seq<Stmt>, e: Env, k': Kont, flow: Flow) {
    && TransfersOk(w, site, flow.transfers, k')
    && (flow.normal.Some? ==>
          && EndOk(w, walk.site, flow.normal.value, walk.k(Normal))
          && (flow.normal.value == walk.cur || flow.normal.value >= |walk.start.notes|))
    && SimulatesSeq(w.graph, body, e, walk.cur, walk.start.graph.Content(walk.cur), flow)
    && Predicted(flow, CompletesSeq(body), OutsSeq(body, e))
  }

  lemma GuardedKept(
    walk: Walk, w: World, w': World, touched: set<BlockId>, site: Site, body: seq<Stmt>, e: Env, k': Kont, flow: Flow)
    requires GraphOk(w) && Extends(w, w', touched) && GraphOk(w')
    requires Guarded(walk, w, site, body, e, k', flow)
    requires flow.normal.Some? ==> flow.normal.value !in touched
    ensures Guarded(walk, w', site, body, e, k', flow)
  {
    hide SimulatesSeq, Predicted, Grown;
    TransfersKept(w, w', touched, site, flow.transfers, k');
    assert forall t :: t in flow.transfers ==> TransferOk(w, site, t, k');
    SimulatesSeqKept(w, w', touched, body, e, walk.cur, walk.start.graph.Content(walk.cur), flow);
    if flow.normal.Some? {
      ContentKept(w, w', touched, flow.normal.value);
    }
  }

  lemma GuardedGrown(
    walk: Walk, w: World, w': World, touched: set<BlockId>, site: Site, body: seq<Stmt>, e: Env, k': Kont, flow: Flow)
    requires GraphOk(w) && Extends(w, w', touched) && GraphOk(w') && Grown(w.graph, w'.graph, {})
    requires Guarded(walk, w, site, body, e, k', flow)
    ensures Guarded(walk, w', site, body, e, k', flow)
  {
    hide SimulatesSeq, Predicted;
    TransfersKept(w, w', touched, site, flow.transfers, k');
    SimulatesSeqGrown(w.graph, w'.graph, body, e, walk.cur, walk.start.graph.Content(walk.cur), flow);
  }

  lemma EmptyGuarded(walk: Walk, w: World, site: Site, e: Env, k': Kont, future: Future)
    requires Holding(walk, w, []) && w.graph == walk.start.graph && w.notes == walk.start.notes
    requires EndOk(walk.start, walk.site, walk.cur, future) && AfterSeq([], e, k') <= future
    requires AfterSeq([], e, k') == k'(Normal) == walk.k(Normal)
    ensures Guarded(walk, w, site, [], e, k', Flow(Some(walk.cur), []))
  {
    hide AfterSeq, WorldOk, Extends;
    EmptySimulates(w.graph, e, walk.cur);
    FeedsWeaken(w.graph.Content(walk.cur), walk.k(Normal), future, w.notes[walk.cur].future);
  }

  lemma GuardEnv(p: Program, site: Site, id: nat)
    ensures EnvAt(p, GuardSite(site, id)) == EnvAt(p, site)
  {}

  /** Taking the identity and recording the base changes no block. */
  lemma GuardReady(walk: Walk, w0: World, w1: World, w2: World, b: BlockId, note: Note)
    requires Holding(walk, w0, []) && Holding(walk, w1, []) && Extends(w0, w1, {}) && Extends(w1, w2, {})
    requires Holding(walk, w2, [])
    requires Reserved(walk, w0, b, note)
    ensures Reserved(walk, w2, b, note) && Extends(w0, w2, {})
  {
    hide CacheOk, BasesOk, ReturnsOk, OriginsOk, Labelled, TransfersOk, EdgeOk, Grown;
    ReservedKept(walk, w0, w1, {}, b, note);
    ReservedKept(walk, w1, w2, {}, b, note);
    ExtendsTrans(w0, w1, w2, {}, {}, {});
  }

  lemma GuardDone(
    walk: Walk, w0: World, w2: World, w3: World, inner: Walk, id: nat, b: BlockId, note: Note, body: seq<Stmt>,
    e: Env, flow: Flow)
    requires Holding(walk, w0, []) && Holding(walk, w2, []) && Extends(w0, w2, {}) && w2.cache == walk.start.cache
    requires inner == walk.(start := w2, cur := b, scopes := ScopesInSeq(body), site := GuardSite(walk.site, id),
                            k := inner.k)
    requires ScopesInSeq(body) <= walk.scopes && inner.k(Normal) == walk.k(Normal)
    requires Reserved(walk, w2, b, note)
    requires w0.graph.Links(walk.cur, [], b) && walk.cur in w0.closed && w0.Has(walk.cur)
    requires w0.graph.Content(walk.cur) == walk.start.graph.Content(walk.cur)
    requires Finished(inner, w3, flow) && SimulatesSeq(w3.graph, body, e, b, [], flow)
    requires Predicted(flow, CompletesSeq(body), OutsSeq(body, e))
    ensures Holding(walk, w3, []) && NewKeys(walk.start, w3, ScopesInSeq(body))
    ensures Guarded(walk, w3, GuardSite(walk.site, id), body, e, inner.k, flow)
  {
    hide CacheOk, BasesOk, ReturnsOk, OriginsOk, Labelled, Grown, TransfersOk, EdgeOk, Feeds, SimulatesSeq;
    hide Predicted, ScopesInSeq;
    HoldingWalk(walk, w2, [], inner, w3, flow.transfers);
    assert inner.Touched() == {b};
    EdgeGrown(w0.graph, w2.graph, {}, walk.cur, [], b);
    EdgeGrown(w2.graph, w3.graph, {b}, walk.cur, [], b);
    ContentKept(w0, w2, {}, walk.cur);
    ContentKept(w2, w3, {b}, walk.cur);
    EntrySimulates(w3.graph, body, e, walk.cur, b, flow);
    NoNewKeys(walk.start, w2);
    NewKeysTrans(walk.start, w2, w3, {}, ScopesInSeq(body));
    assert {} + ScopesInSeq(body) == ScopesInSeq(body);
  }

  // ---- Exceptions and other transfers

  function Exceptions(ts: seq<Transfer>): seq<Transfer> {
    if ts == [] then []
    else Exceptions(ts[..|ts| - 1]) + if ts[|ts| - 1].kind.ToException? then [ts[|ts| - 1]] else []
  }

  function Others(ts: seq<Transfer>): seq<Transfer> {
    if ts == [] then []
    else Others(ts[..|ts| - 1]) + if ts[|ts| - 1].kind.ToException? then [] else [ts[|ts| - 1]]
  }

  lemma {:induction false} SplitTransfers(ts: seq<Transfer>, t: Transfer)
    ensures t in Exceptions(ts) <==> t in ts && t.kind.ToException?
    ensures t in Others(ts) <==> t in ts && !t.kind.ToException?
    decreases |ts|
  {
    if ts != [] {
      var n := |ts| - 1;
      SplitTransfers(ts[..n], t);
      assert t in ts <==> t in ts[..n] || t == ts[n];
    }
  }

  function FactOf(t: Transfer): Fact {
    if t.fact.Some? then t.fact.value else Unknown
  }

  function FactsIn(ts: seq<Transfer>): seq<Fact> {
    seq(|ts|, i requires 0 <= i < |ts| => FactOf(ts[i]))
  }

  /** The facts handed to the handlers are those that the body is predicted to raise. */
  lemma IncomingFacts(flow: Flow, completes: bool, outs: set<Outcome>)
    requires Predicted(flow, completes, outs)
    ensures FactSet(FactsIn(Exceptions(flow.transfers))) == FactsOf(outs)
  {
    var ts := flow.transfers;
    var exc := Exceptions(ts);
    forall f | f in FactSet(FactsIn(exc)) ensures f in FactsOf(outs) {
      var i :| 0 <= i < |exc| && FactsIn(exc)[i] == f;
      SplitTransfers(ts, exc[i]);
      assert TransferOutcome(exc[i]) in Outcomes(ts);
    }
    forall f | f in FactsOf(outs) ensures f in FactSet(FactsIn(exc)) {
      var o :| o in outs && o.Raised? && o.fact == f;
      var t :| t in ts && TransferOutcome(t) == o;
      SplitTransfers(ts, t);
      var i :| 0 <= i < |exc| && exc[i] == t;
      assert FactsIn(exc)[i] == f;
    }
  }

  // ---- Handlers

  /** The kind of the block in which a handler starts. */
  function HandlerKind(h: Handler): BlockKind {
    if h.Typed? then ExceptHandler else BareExceptHandler
  }

  /** A walked handler: its dispatch block and its flow. */
  datatype HandlerFlow = HandlerFlow(entry: BlockId, flow: Flow)

  /** An `except` part without handlers acts as one empty catch-all. */
  function Effective(hs: seq<Handler>): seq<Handler> {
    if hs == [] then [CatchAll([])] else hs
  }

  ghost predicate HandlerOk(walk: Walk, w: World, e: Env, h: Handler, hf: HandlerFlow, ts: seq<Transfer>) {
    && w.Has(hf.entry)
    && w.notes[hf.entry] == Note(AfterSeq(h.body, e, walk.k), walk.site.scopes, HandlerKind(h))
    && SimulatesSeq(w.graph, h.body, e, hf.entry, [], hf.flow)
    && Predicted(hf.flow, CompletesSeq(h.body), OutsSeq(h.body, e))
    && (forall t :: t in hf.flow.transfers ==> t in ts)
    && (hf.flow.normal.Some? ==>
          EndOk(w, walk.site, hf.flow.normal.value, walk.k(Normal)) && hf.flow.normal.value >= |walk.start.notes|)
  }

  ghost predicate HandlersOk(
    walk: Walk, w: World, e: Env, incoming: set<Fact>, hs: seq<Handler>, hfs: seq<HandlerFlow>, ts: seq<Transfer>)
  {
    && |hs| == |hfs|
    && forall j :: 0 <= j < |hs| ==> HandlerOk(walk, w, HandlerEnv(e, hs[j], incoming), hs[j], hfs[j], ts)
  }

  lemma HandlerOkKept(
    walk: Walk, w: World, w': World, touched: set<BlockId>, e: Env, h: Handler, hf: HandlerFlow,
    ts: seq<Transfer>, us: seq<Transfer>)
    requires GraphOk(w) && Extends(w, w', touched) && GraphOk(w') && TransfersOk(w, walk.site, ts, walk.k)
    requires HandlerOk(walk, w, e, h, hf, ts)
    requires hf.flow.normal.Some? ==> hf.flow.normal.value !in touched
    requires forall t :: t in ts ==> t in us
    ensures HandlerOk(walk, w', e, h, hf, us)
  {
    hide SimulatesSeq, Predicted, AfterSeq, Grown;
    assert forall t :: t in ts ==> TransferOk(w, walk.site, t, walk.k);
    SimulatesSeqKept(w, w', touched, h.body, e, hf.entry, [], hf.flow);
    if hf.flow.normal.Some? {
      ContentKept(w, w', touched, hf.flow.normal.value);
    }
  }

  lemma HandlersKept(
    walk: Walk, w: World, w': World, touched: set<BlockId>, e: Env, incoming: set<Fact>,
    hs: seq<Handler>, hfs: seq<HandlerFlow>, ts: seq<Transfer>, us: seq<Transfer>)
    requires GraphOk(w) && Extends(w, w', touched) && GraphOk(w') && TransfersOk(w, walk.site, ts, walk.k)
    requires HandlersOk(walk, w, e, incoming, hs, hfs, ts)
    requires forall j :: 0 <= j < |hfs| && hfs[j].flow.normal.Some? ==> hfs[j].flow.normal.value !in touched
    requires forall t :: t in ts ==> t in us
    ensures HandlersOk(walk, w', e, incoming, hs, hfs, us)
  {
    hide HandlerEnv;
    forall j | 0 <= j < |hs| ensures HandlerOk(walk, w', HandlerEnv(e, hs[j], incoming), hs[j], hfs[j], us) {
      assert HandlerOk(walk, w, HandlerEnv(e, hs[j], incoming), hs[j], hfs[j], ts);
      HandlerOkKept(walk, w, w', touched, HandlerEnv(e, hs[j], incoming), hs[j], hfs[j], ts, us);
    }
  }

  lemma HandlersGrown(
    walk: Walk, w: World, w': World, touched: set<BlockId>, e: Env, incoming: set<Fact>,
    hs: seq<Handler>, hfs: seq<HandlerFlow>, ts: seq<Transfer>, us: seq<Transfer>)
    requires GraphOk(w) && Extends(w, w', touched) && GraphOk(w') && Grown(w.graph, w'.graph, {})
    requires HandlersOk(walk, w, e, incoming, hs, hfs, ts)
    requires forall t :: t in ts ==> t in us
    ensures HandlersOk(walk, w', e, incoming, hs, hfs, us)
  {
    hide HandlerEnv, Predicted, AfterSeq, SimulatesSeq;
    forall j | 0 <= j < |hs| ensures HandlerOk(walk, w', HandlerEnv(e, hs[j], incoming), hs[j], hfs[j], us) {
      assert HandlerOk(walk, w, HandlerEnv(e, hs[j], incoming), hs[j], hfs[j], ts);
      SimulatesSeqGrown(w.graph, w'.graph, hs[j].body, HandlerEnv(e, hs[j], incoming), hfs[j].entry, [], hfs[j].flow);
    }
  }

  lemma HandlerCanWalk(
    walk: Walk, active: Option<nat>, future: Future, w: World, ts: seq<Transfer>, b: BlockId, h: Handler,
    e: Env, fact: Fact, used: set<ScopeId>)
    requires CanWalk(walk, active, future) && Holding(walk, w, ts)
    requires Reserved(walk, w, b, Note(AfterSeq(h.body, e, walk.k), walk.site.scopes, HandlerKind(h)))
    requires NewKeys(walk.start, w, used) && used !! ScopesInSeq(h.body) && ScopesInSeq(h.body) <= walk.scopes
    ensures CanWalk(walk.(start := w, cur := b, scopes := ScopesInSeq(h.body), site := HandlerSite(walk.site, fact)),
                    active, AfterSeq(h.body, e, walk.k))
    ensures HandlerSite(walk.site, fact).Depths() == walk.site.Depths().InHandler()
  {
    hide WorldOk, AfterSeq, ScopesInSeq, Follows, ActiveOk, FreshFor, EndOk, Reserved, NewKeys, TransfersOk, Grown;
    var inner := HandlerSite(walk.site, fact);
    FollowsKept(walk.program, walk.start, w, walk.site, walk.k);
    HandlerFollows(walk.program, w, walk.site, fact, walk.k);
    assert Apart(inner, walk.keys, ScopesInSeq(h.body)) && ScopesPlaced(walk.program, inner);
    hide CanWalk, Holding, Apart, ScopesPlaced;
    InnerCanWalk(walk, active, future, w, ts, b, h.body, e, inner, walk.k, used, HandlerKind(h));
  }

  /** One more handler has been walked. */
  lemma HandlerDone(
    walk: Walk, w: World, w': World, e: Env, incoming: set<Fact>, hs: seq<Handler>, hfs: seq<HandlerFlow>,
    ts: seq<Transfer>,
    h: Handler, b: BlockId, fact: Fact, flow: Flow)
    requires Holding(walk, w, ts) && HandlersOk(walk, w, e, incoming, hs, hfs, ts)
    requires Reserved(walk, w, b,
                      Note(AfterSeq(h.body, HandlerEnv(e, h, incoming), walk.k), walk.site.scopes, HandlerKind(h)))
    requires forall j :: 0 <= j < |hfs| ==> hfs[j].flow.normal != Some(b)
    requires ScopesInSeq(h.body) <= walk.scopes
    requires Finished(walk.(start := w, cur := b, scopes := ScopesInSeq(h.body),
                            site := HandlerSite(walk.site, fact)), w', flow)
    requires SimulatesSeq(w'.graph, h.body, HandlerEnv(e, h, incoming), b, [], flow)
    requires Predicted(flow, CompletesSeq(h.body), OutsSeq(h.body, HandlerEnv(e, h, incoming)))
    ensures Holding(walk, w', ts + flow.transfers) && Extends(w, w', {b})
    ensures HandlersOk(walk, w', e, incoming, hs + [h], hfs + [HandlerFlow(b, flow)], ts + flow.transfers)
  {
    hide CacheOk, BasesOk, ReturnsOk, OriginsOk, Labelled, AfterSeq, SimulatesSeq, Predicted, Grown;
    hide ScopesInSeq, HandlerEnv, EdgeOk;
    var inner := walk.(start := w, cur := b, scopes := ScopesInSeq(h.body), site := HandlerSite(walk.site, fact));
    HoldingWalk(walk, w, ts, inner, w', flow.transfers);
    assert inner.Touched() == {b};
    HandlerTransfers(w', walk.site, fact, flow.transfers, walk.k);
    HoldingMore(walk, w', ts, flow.transfers);
    HandlersKept(walk, w, w', {b}, e, incoming, hs, hfs, ts, ts + flow.transfers);
    assert HandlerOk(walk, w', HandlerEnv(e, h, incoming), h, HandlerFlow(b, flow), ts + flow.transfers);
  }

  /** Being inside a handler does not change where transfers wait. */
  lemma HandlerTransfers(w: World, site: Site, fact: Fact, ts: seq<Transfer>, k: Kont)
    requires TransfersOk(w, HandlerSite(site, fact), ts, k)
    ensures TransfersOk(w, site, ts, k)
  {
    forall t | t in ts ensures TransferOk(w, site, t, k) {
      assert TransferOk(w, HandlerSite(site, fact), t, k);
    }
  }

  /** Being guarded does not change it for transfers other than exceptions. */
  lemma GuardTransfers(w: World, site: Site, id: nat, ts: seq<Transfer>, k: Kont, k': Kont)
    requires TransfersOk(w, GuardSite(site, id), ts, k')
    requires forall o: Outcome :: !o.Normal? && !o.Raised? ==> k'(o) == k(o)
    ensures TransfersOk(w, site, Others(ts), k)
  {
    forall t | t in Others(ts) ensures TransferOk(w, site, t, k) {
      SplitTransfers(ts, t);
      assert TransferOk(w, GuardSite(site, id), t, k');
    }
  }

  // ---- The handlers of one statement

  /** A `try..except` whose guarded body has been walked. */
  datatype Excepting = Excepting(walk: Walk, id: nat, stmt: Stmt, env: Env, body: Flow) {
    ghost function Guard(): Site {
      GuardSite(walk.site, id)
    }

    ghost function Incoming(): set<Fact>
      requires stmt.TryExcept?
    {
      FactsOf(OutsSeq(stmt.body, env))
    }

    ghost function Inner(): Kont
      requires stmt.TryExcept?
    {
      ThroughExcept(stmt.handlers, env, Incoming(), walk.k)
    }

    /** The handlers `hs` have been walked, with their transfers `ts`. */
    ghost predicate Ok(w: World, hs: seq<Handler>, hfs: seq<HandlerFlow>, ts: seq<Transfer>) {
      && stmt.TryExcept?
      && Holding(walk, w, ts)
      && Guarded(walk, w, Guard(), stmt.body, env, Inner(), body)
      && HandlersOk(walk, w, env, Incoming(), hs, hfs, ts)
      && HandlersPredicted(env, Incoming(), hs, ts)
    }
  }

  lemma NoHandlersYet(ex: Excepting, w: World)
    requires ex.stmt.TryExcept? && Holding(ex.walk, w, [])
    requires Guarded(ex.walk, w, ex.Guard(), ex.stmt.body, ex.env, ex.Inner(), ex.body)
    ensures ex.Ok(w, [], [], [])
  {
    hide Holding, Guarded, OutsSeq;
  }

  /** The ends found so far are blocks of the present world. */
  lemma ExceptingBelow(ex: Excepting, w: World, hs: seq<Handler>, hfs: seq<HandlerFlow>, ts: seq<Transfer>)
    requires ex.Ok(w, hs, hfs, ts)
    ensures ex.body.normal.Some? ==> ex.body.normal.value < |w.notes|
    ensures forall j :: 0 <= j < |hfs| && hfs[j].flow.normal.Some? ==> hfs[j].flow.normal.value < |w.notes|
  {
    hide Holding, SimulatesSeq, Predicted, HandlersPredicted, AfterSeq, Feeds;
    forall j | 0 <= j < |hfs| && hfs[j].flow.normal.Some? ensures hfs[j].flow.normal.value < |w.notes| {
      assert HandlerOk(ex.walk, w, HandlerEnv(ex.env, hs[j], ex.Incoming()), hs[j], hfs[j], ts);
    }
  }

  lemma ExceptingKept(
    ex: Excepting, w: World, w': World, touched: set<BlockId>, hs: seq<Handler>, hfs: seq<HandlerFlow>,
    ts: seq<Transfer>)
    requires ex.Ok(w, hs, hfs, ts) && Extends(w, w', touched) && Holding(ex.walk, w', ts)
    requires ex.body.normal.Some? ==> ex.body.normal.value !in touched
    requires forall j :: 0 <= j < |hfs| && hfs[j].flow.normal.Some? ==> hfs[j].flow.normal.value !in touched
    ensures ex.Ok(w', hs, hfs, ts)
  {
    hide CacheOk, BasesOk, ReturnsOk, OriginsOk, Labelled, Guarded, HandlersOk, HandlersPredicted, Extends;
    hide TransfersOk, GraphOk;
    GuardedKept(ex.walk, w, w', touched, ex.Guard(), ex.stmt.body, ex.env, ex.Inner(), ex.body);
    HandlersKept(ex.walk, w, w', touched, ex.env, ex.Incoming(), hs, hfs, ts, ts);
  }

  lemma ExceptingGrown(
    ex: Excepting, w: World, w': World, touched: set<BlockId>, hs: seq<Handler>, hfs: seq<HandlerFlow>,
    ts: seq<Transfer>)
    requires ex.Ok(w, hs, hfs, ts) && Extends(w, w', touched) && Holding(ex.walk, w', ts)
    requires Grown(w.graph, w'.graph, {})
    ensures ex.Ok(w', hs, hfs, ts)
  {
    hide CacheOk, BasesOk, ReturnsOk, OriginsOk, Labelled, Guarded, HandlersOk, HandlersPredicted, Extends;
    hide TransfersOk, GraphOk, Grown;
    GuardedGrown(ex.walk, w, w', touched, ex.Guard(), ex.stmt.body, ex.env, ex.Inner(), ex.body);
    HandlersGrown(ex.walk, w, w', touched, ex.env, ex.Incoming(), hs, hfs, ts, ts);
  }

  ghost function HandlerNote(ex: Excepting, h: Handler): Note
    requires ex.stmt.TryExcept?
  {
    Note(AfterSeq(h.body, HandlerEnv(ex.env, h, ex.Incoming()), ex.walk.k), ex.walk.site.scopes, HandlerKind(h))
  }

  lemma HandlerEnvAt(p: Program, site: Site, fact: Fact)
    ensures EnvAt(p, HandlerSite(site, fact)) == EnvAt(p, site).(handled := fact)
  {}

  /** One more handler of the statement has been walked, from its own block `b`. */
  lemma ExceptingNext(
    ex: Excepting, w: World, w': World, hs: seq<Handler>, hfs: seq<HandlerFlow>, ts: seq<Transfer>,
    h: Handler, b: BlockId, fact: Fact, flow: Flow)
    requires ex.Ok(w, hs, hfs, ts) && Reserved(ex.walk, w, b, HandlerNote(ex, h))
    requires ScopesInSeq(h.body) <= ex.walk.scopes
    requires ex.body.normal != Some(b) && forall j :: 0 <= j < |hfs| ==> hfs[j].flow.normal != Some(b)
    requires Finished(ex.walk.(start := w, cur := b, scopes := ScopesInSeq(h.body),
                               site := HandlerSite(ex.walk.site, fact)), w', flow)
    requires SimulatesSeq(w'.graph, h.body, HandlerEnv(ex.env, h, ex.Incoming()), b, [], flow)
    requires Predicted(flow, CompletesSeq(h.body), OutsSeq(h.body, HandlerEnv(ex.env, h, ex.Incoming())))
    ensures ex.Ok(w', hs + [h], hfs + [HandlerFlow(b, flow)], ts + flow.transfers)
  {
    hide SimulatesSeq, Predicted, AfterSeq, CompletesSeq, OutsSeq, HandlerEnv, ScopesInSeq, HandlersPredicted;
    hide Guarded, HandlersOk;
    HandlerDone(ex.walk, w, w', ex.env, ex.Incoming(), hs, hfs, ts, h, b, fact, flow);
    HandlersPredictedNext(ex.env, ex.Incoming(), hs, ts, h, flow);
    hide Finished, Extends, CacheOk, BasesOk, ReturnsOk, OriginsOk, Labelled, TransfersOk, EdgeOk, Reserved;
    GuardedKept(ex.walk, w, w', {b}, ex.Guard(), ex.stmt.body, ex.env, ex.Inner(), ex.body);
  }

  /** The facts of the pending exceptions are the ones that the body may raise. */
  lemma BodyFacts(ex: Excepting, w: World, hs: seq<Handler>, hfs: seq<HandlerFlow>, ts: seq<Transfer>)
    requires ex.Ok(w, hs, hfs, ts)
    ensures FactSet(FactsIn(Exceptions(ex.body.transfers))) == ex.Incoming()
  {
    IncomingFacts(ex.body, CompletesSeq(ex.stmt.body), OutsSeq(ex.stmt.body, ex.env));
  }

  lemma HandlerReady(
    ex: Excepting, active: Option<nat>, future: Future, w: World, hs: seq<Handler>, hfs: seq<HandlerFlow>,
    ts: seq<Transfer>,
    b: BlockId, h: Handler, fact: Fact, used: set<ScopeId>)
    requires ex.Ok(w, hs, hfs, ts) && CanWalk(ex.walk, active, future) && ex.env == EnvAt(ex.walk.program, ex.walk.site)
    requires Reserved(ex.walk, w, b, HandlerNote(ex, h)) && fact == HandledFact(ex.walk.program.index, h, ex.Incoming())
    requires NewKeys(ex.walk.start, w, used) && used !! ScopesInSeq(h.body) && ScopesInSeq(h.body) <= ex.walk.scopes
    ensures HandlerSite(ex.walk.site, fact).Depths() == ex.walk.site.Depths().InHandler()
    ensures EnvAt(ex.walk.program, HandlerSite(ex.walk.site, fact)) == HandlerEnv(ex.env, h, ex.Incoming())
    ensures CanWalk(
              ex.walk.(start := w, cur := b, scopes := ScopesInSeq(h.body), site := HandlerSite(ex.walk.site, fact)),
                  active,
              AfterSeq(h.body, HandlerEnv(ex.env, h, ex.Incoming()), ex.walk.k))
    ensures w.graph.Content(b) == []
  {
    hide CanWalk, Holding, Guarded, HandlersOk, HandlersPredicted, AfterSeq, ScopesInSeq, NewKeys, OutsSeq;
    HandlerEnvAt(ex.walk.program, ex.walk.site, fact);
    HandlerCanWalk(ex.walk, active, future, w, ts, b, h, HandlerEnv(ex.env, h, ex.Incoming()), fact, used);
  }

  lemma HandlerKeys(ex: Excepting, inner: Walk, w: World, w': World, flow: Flow, used: set<ScopeId>, more: set<ScopeId>)
    requires NewKeys(ex.walk.start, w, used) && inner.start == w && inner.scopes == more && Finished(inner, w', flow)
    ensures NewKeys(ex.walk.start, w', used + more)
  {
    NewKeysTrans(ex.walk.start, w, w', used, more);
  }

  /** Without handlers, one empty block stands for an empty catch-all. */
  lemma ExceptingDefault(ex: Excepting, w: World, b: BlockId)
    requires ex.Ok(w, [], [], []) && Reserved(ex.walk, w, b, HandlerNote(ex, CatchAll([])))
    ensures ex.Ok(w, [CatchAll([])], [HandlerFlow(b, Flow(Some(b), []))], [])
  {
    hide Holding, Guarded, OutsSeq, CompletesSeq, SimulatesSeq, Predicted, HandlersPredicted, AfterSeq, HandlerEnv;
    var h := CatchAll([]);
    var e := HandlerEnv(ex.env, h, ex.Incoming());
    var flow := Flow(Some(b), []);
    EmptySimulates(w.graph, e, b);
    HandlersPredictedNext(ex.env, ex.Incoming(), [], [], h, flow);
    assert [] + [h] == [h];
    assert [] + flow.transfers == flow.transfers;
    AfterSeqEmpty(e, ex.walk.k);
    FeedsSelf(ex.walk.k(Normal), ex.walk.k(Normal));
    assert HandlerOk(ex.walk, w, e, h, HandlerFlow(b, flow), []);
  }

  // ---- Dispatch

  /** The source reaches every handler that may receive the fact. */
  ghost predicate Dispatched(
    g: Graph, index: TypeIndex, hs: seq<Handler>, hfs: seq<HandlerFlow>, fact: Fact, source: BlockId)
    requires |hs| == |hfs|
  {
    forall j :: 0 <= j < |hs| && MayCatch(index, hs, fact, j) ==> g.Links(source, Mark(ExceptionThrow), hfs[j].entry)
  }

  lemma DispatchedGrown(
    g: Graph, g': Graph, index: TypeIndex, hs: seq<Handler>, hfs: seq<HandlerFlow>, fact: Fact, source: BlockId)
    requires |hs| == |hfs| && Grown(g, g', {}) && Dispatched(g, index, hs, hfs, fact, source)
    ensures Dispatched(g', index, hs, hfs, fact, source)
  {
    forall j | 0 <= j < |hs| && MayCatch(index, hs, fact, j)
      ensures g'.Links(source, Mark(ExceptionThrow), hfs[j].entry) {
      EdgeGrown(g, g', {}, source, Mark(ExceptionThrow), hfs[j].entry);
    }
  }

  /** The future of a handler that may catch is allowed wherever the exception is pending. */
  lemma CatchFeeds(
    walk: Walk, w: World, site: Site, t: Transfer, e: Env, hs: seq<Handler>, incoming: set<Fact>, j: nat)
    requires TransferOk(w, site, t, ThroughExcept(hs, e, incoming, walk.k)) && t.kind.ToException?
    requires j < |Effective(hs)| && MayCatch(e.index, Effective(hs), FactOf(t), j)
    ensures Feeds(w.graph.Content(t.source) + Mark(ExceptionThrow),
                  AfterSeq(Effective(hs)[j].body, HandlerEnv(e, Effective(hs)[j], incoming), walk.k),
                  w.notes[t.source].future)
  {
    hide IsRunSeq, KeyFor, HandlerEnv, Mark;
    var h := Effective(hs)[j];
    var o := TransferOutcome(t);
    var future := AfterSeq(h.body, HandlerEnv(e, h, incoming), walk.k);
    var thrown := Behind(Mark(ExceptionThrow), future);
    assert o.Raised? && o.fact == FactOf(t);
    if hs == [] {
      AfterSeqEmpty(HandlerEnv(e, h, incoming), walk.k);
    } else {
      hide AfterSeq;
      forall u | u in thrown ensures u in Caught(hs, e, incoming, walk.k, o.fact) {
        assert Effective(hs) == hs && MayCatch(e.index, hs, o.fact, j);
      }
    }
    assert thrown <= ThroughExcept(hs, e, incoming, walk.k)(o);
    hide ThroughExcept;
    FeedsWeaken(w.graph.Content(t.source), thrown, ThroughExcept(hs, e, incoming, walk.k)(o), w.notes[t.source].future);
    FeedsBehind(w.graph.Content(t.source), Mark(ExceptionThrow), future, w.notes[t.source].future);
  }

  lemma EscapeOk(walk: Walk, w: World, id: nat, t: Transfer, e: Env, hs: seq<Handler>, incoming: set<Fact>)
    requires TransferOk(w, GuardSite(walk.site, id), t, ThroughExcept(hs, e, incoming, walk.k)) && t.kind.ToException?
    requires Escapes(e.index, hs, FactOf(t))
    ensures TransferOk(w, walk.site, t, walk.k)
  {
    hide Caught;
    var o := TransferOutcome(t);
    assert walk.k(o) <= ThroughExcept(hs, e, incoming, walk.k)(o);
    FeedsWeaken(w.graph.Content(t.source), walk.k(o), ThroughExcept(hs, e, incoming, walk.k)(o),
                w.notes[t.source].future);
  }

  /** An edge from a pending exception to a handler that may catch it is allowed. */
  lemma CatchEdge(ex: Excepting, w: World, hfs: seq<HandlerFlow>, ts: seq<Transfer>, t: Transfer, j: nat)
    requires ex.stmt.TryExcept? && ex.Ok(w, Effective(ex.stmt.handlers), hfs, ts)
    requires t in Exceptions(ex.body.transfers) && j < |hfs|
    requires MayCatch(ex.env.index, Effective(ex.stmt.handlers), FactOf(t), j)
    ensures w.Has(t.source) && t.source in w.closed && w.Has(hfs[j].entry)
    ensures ScopeStep(w.notes[t.source], w.notes[hfs[j].entry])
    ensures KindFits(ExceptionThrow, w.notes[hfs[j].entry].kind)
    ensures Feeds(w.graph.Content(t.source) + Mark(ExceptionThrow), w.notes[hfs[j].entry].future,
                  w.notes[t.source].future)
  {
    hide Holding, SimulatesSeq, Predicted, HandlersPredicted, AfterSeq, MayCatch, OutsSeq, CompletesSeq, KeyOf;
    hide KeyFor, Feeds;
    var hs := Effective(ex.stmt.handlers);
    SplitTransfers(ex.body.transfers, t);
    assert TransferOk(w, ex.Guard(), t, ex.Inner());
    CatchFeeds(ex.walk, w, ex.Guard(), t, ex.env, ex.stmt.handlers, ex.Incoming(), j);
    hide HandlerEnv;
    assert HandlerOk(ex.walk, w, HandlerEnv(ex.env, hs[j], ex.Incoming()), hs[j], hfs[j], ts);
  }

  /** The handlers before `j` have been linked; `escapes` says that none of them surely catches. */
  ghost predicate Linking(
    g: Graph, index: TypeIndex, hs: seq<Handler>, hfs: seq<HandlerFlow>, fact: Fact, source: BlockId, j: nat,
    escapes: bool)
    requires |hs| == |hfs|
  {
    && (forall m :: 0 <= m < j && m < |hs| && MayCatch(index, hs, fact, m) ==>
       g.Links(source, Mark(ExceptionThrow), hfs[m].entry))
    && (escapes ==> forall m :: 0 <= m < j && m < |hs| ==>
          hs[m].Typed? && MatchHandler(index, fact, HandlerFact(hs[m])) != Yes)
    && (!escapes ==> exists m ::
          0 <= m < j && m < |hs| && !(hs[m].Typed? && MatchHandler(index, fact, HandlerFact(hs[m])) != Yes))
  }

  lemma NoLinks(g: Graph, index: TypeIndex, hs: seq<Handler>, hfs: seq<HandlerFlow>, fact: Fact, source: BlockId)
    requires |hs| == |hfs|
    ensures Linking(g, index, hs, hfs, fact, source, 0, true)
  {}

  lemma MayCatchHere(
    index: TypeIndex, hs: seq<Handler>, fact: Fact, j: nat, g: Graph, hfs: seq<HandlerFlow>, source: BlockId)
    requires |hs| == |hfs| && j < |hs| && Linking(g, index, hs, hfs, fact, source, j, true)
    ensures MayCatch(index, hs, fact, j) <==> hs[j].CatchAll? || MatchHandler(index, fact, HandlerFact(hs[j])) != No
  {}

  lemma EnvIndex(p: Program, site: Site)
    ensures EnvAt(p, site).index == p.index
  {}

  lemma LinkingDone(
    g: Graph, index: TypeIndex, hs: seq<Handler>, hfs: seq<HandlerFlow>, fact: Fact, source: BlockId, j: nat,
    escapes: bool)
    requires |hs| == |hfs| && Linking(g, index, hs, hfs, fact, source, j, escapes) && j <= |hs| && hs != []
    requires j == |hs| || !escapes
    ensures Dispatched(g, index, hs, hfs, fact, source) && (escapes <==> Escapes(index, hs, fact))
  {
    if escapes {
      forall h | h in hs ensures h.Typed? && MatchHandler(index, fact, HandlerFact(h)) != Yes {
        var m :| 0 <= m < |hs| && hs[m] == h;
      }
    } else {
      var m :| 0 <= m < j && m < |hs| && !(hs[m].Typed? && MatchHandler(index, fact, HandlerFact(hs[m])) != Yes);
      assert hs[m] in hs;
    }
  }

  lemma LinkingGrown(
    g: Graph, g': Graph, index: TypeIndex, hs: seq<Handler>, hfs: seq<HandlerFlow>, fact: Fact, source: BlockId, j: nat)
    requires |hs| == |hfs| && j < |hs| && Linking(g, index, hs, hfs, fact, source, j, true) && Grown(g, g', {})
    requires MayCatch(index, hs, fact, j) ==> g'.Links(source, Mark(ExceptionThrow), hfs[j].entry)
    ensures Linking(g', index, hs, hfs, fact, source, j + 1, hs[j].Typed?
                    && MatchHandler(index, fact, HandlerFact(hs[j])) != Yes)
  {
    forall m | 0 <= m < j && MayCatch(index, hs, fact, m) ensures g'.Links(source, Mark(ExceptionThrow), hfs[m].entry) {
      EdgeGrown(g, g', {}, source, Mark(ExceptionThrow), hfs[m].entry);
    }
    assert MayCatch(index, hs, fact, j) <==> hs[j].CatchAll? || MatchHandler(index, fact, HandlerFact(hs[j])) != No;
  }

  /** All the exceptions of the body are dispatched. */
  ghost predicate AllDispatched(
    g: Graph, index: TypeIndex, hs: seq<Handler>, hfs: seq<HandlerFlow>, exc: seq<Transfer>, kept: seq<Transfer>)
    requires |hs| == |hfs|
  {
    forall t :: t in exc ==>
      Dispatched(g, index, hs, hfs, FactOf(t), t.source) && (Escapes(index, hs, FactOf(t)) ==> t in kept)
  }

  lemma AllDispatchedGrown(
    g: Graph, g': Graph, index: TypeIndex, hs: seq<Handler>, hfs: seq<HandlerFlow>, exc: seq<Transfer>,
    kept: seq<Transfer>, more: seq<Transfer>)
    requires |hs| == |hfs| && Grown(g, g', {}) && AllDispatched(g, index, hs, hfs, exc, kept)
    requires forall t :: t in kept ==> t in more
    ensures AllDispatched(g', index, hs, hfs, exc, more)
  {
    hide Escapes, Dispatched;
    forall t | t in exc ensures Dispatched(g', index, hs, hfs, FactOf(t), t.source) {
      DispatchedGrown(g, g', index, hs, hfs, FactOf(t), t.source);
    }
  }

  // ---- The whole statement

  lemma EffectiveEscapes(index: TypeIndex, hs: seq<Handler>, fact: Fact)
    ensures Escapes(index, Effective(hs), fact) == Escapes(index, hs, fact)
  {
    if hs == [] {
      assert CatchAll([]) in Effective(hs);
    }
  }

  /** From a pending exception into a handler and on to where the handler ends. */
  lemma CatchLands(
    g: Graph, start: BlockId, trace: Trace, source: BlockId, entry: BlockId, body: seq<Stmt>, e: Env,
    inner: Flow, flow: Flow, r: Run)
    requires Reaches(g, start, trace, source) && g.Links(source, Mark(ExceptionThrow), entry)
    requires SimulatesSeq(g, body, e, entry, [], inner) && IsRunSeq(body, e, r) && Passes(g, inner, flow)
    ensures Lands(g, start, trace + Mark(ExceptionThrow) + Events(r), r.out, flow)
  {
    hide IsRunSeq, Reaches, Mark;
    assert [] + Events(r) == Events(r);
    LandsVia(g, start, trace, source, Mark(ExceptionThrow), entry, Events(r), r.out, inner);
    LandsPasses(g, start, trace + Mark(ExceptionThrow) + Events(r), r.out, inner, flow);
  }

  ghost predicate HandlersPass(
    g: Graph, e: Env, incoming: set<Fact>, hs: seq<Handler>, hfs: seq<HandlerFlow>, flow: Flow)
    requires |hs| == |hfs|
  {
    forall j :: 0 <= j < |hs| ==>
      && SimulatesSeq(g, hs[j].body, HandlerEnv(e, hs[j], incoming), hfs[j].entry, [], hfs[j].flow)
      && Passes(g, hfs[j].flow, flow)
  }

  lemma RaisedLands(
    g: Graph, s: Stmt, e: Env, start: BlockId, before: Trace, tflow: Flow, hfs: seq<HandlerFlow>, flow: Flow,
    r: Run, t: Transfer)
    requires s.TryExcept? && IsRun(s, e, r) && r.first.out.Raised? && |Effective(s.handlers)| == |hfs|
    requires t in tflow.transfers && TransferOutcome(t) == r.first.out
    requires Reaches(g, start, before + Events(r.first), t.source)
    requires HandlersPass(g, e, FactsOf(OutsSeq(s.body, e)), Effective(s.handlers), hfs, flow)
    requires AllDispatched(g, e.index, Effective(s.handlers), hfs, Exceptions(tflow.transfers), flow.transfers)
    ensures Lands(g, start, before + Events(r), r.out, flow)
  {
    hide Reaches, HandlerEnv, OutsSeq, Refs, SimulatesSeq, Mark, IsRunSeq, MayCatch, Dispatched, Passes;
    hide Exceptions;
    var hs := Effective(s.handlers);
    var incoming := FactsOf(OutsSeq(s.body, e));
    var fact := r.first.out.fact;
    assert t.kind.ToException? && FactOf(t) == fact;
    SplitTransfers(tflow.transfers, t);
    EffectiveEscapes(e.index, s.handlers, fact);
    if Escapes(e.index, s.handlers, fact) && r.second == Done && r.out == r.first.out {
      assert t in flow.transfers;
      assert Events(r) == Events(r.first);
    } else {
      var i, b := HandlerRun(s, e, r);
      hide IsRun, Escapes, Effective;
      HandlerLands(g, e, start, before + Events(r.first), incoming, hs, hfs, flow, fact, t.source, i, b);
      assert before + Events(r.first) + Mark(ExceptionThrow) + Events(b) == before + Events(r);
    }
  }

  /** A run that is not left by the exception goes through one of the handlers. */
  lemma HandlerRun(s: Stmt, e: Env, r: Run) returns (i: nat, b: Run)
    requires s.TryExcept? && IsRun(s, e, r) && r.first.out.Raised?
    requires !(Escapes(e.index, s.handlers, r.first.out.fact) && r.second == Done && r.out == r.first.out)
    ensures i < |Effective(s.handlers)| && MayCatch(e.index, Effective(s.handlers), r.first.out.fact, i)
    ensures IsRunSeq(Effective(s.handlers)[i].body,
                     HandlerEnv(e, Effective(s.handlers)[i], FactsOf(OutsSeq(s.body, e))), b)
    ensures b.out == r.out && Events(r) == Events(r.first) + (Mark(ExceptionThrow) + Events(b))
  {
    hide HandlerEnv, OutsSeq, Mark;
    var incoming := FactsOf(OutsSeq(s.body, e));
    if s.handlers == [] {
      i, b := 0, Done;
      assert Mark(ExceptionThrow) + Events(b) == Mark(ExceptionThrow);
    } else {
      hide Escapes;
      assert r.second.Node? && r.second.first == Leaf(Mark(ExceptionThrow), Normal);
      i :| 0 <= i < |s.handlers| && MayCatch(e.index, s.handlers, r.first.out.fact, i)
          && IsRunSeq(s.handlers[i].body, HandlerEnv(e, s.handlers[i], incoming), r.second.second);
      b := r.second.second;
      assert Events(r.second) == Mark(ExceptionThrow) + Events(b);
    }
  }

  lemma HandlerLands(
    g: Graph, e: Env, start: BlockId, trace: Trace, incoming: set<Fact>, hs: seq<Handler>, hfs: seq<HandlerFlow>,
    flow: Flow, fact: Fact, source: BlockId, i: nat, b: Run)
    requires |hs| == |hfs| && i < |hs| && MayCatch(e.index, hs, fact, i)
    requires IsRunSeq(hs[i].body, HandlerEnv(e, hs[i], incoming), b)
    requires Reaches(g, start, trace, source) && Dispatched(g, e.index, hs, hfs, fact, source)
    requires HandlersPass(g, e, incoming, hs, hfs, flow)
    ensures Lands(g, start, trace + Mark(ExceptionThrow) + Events(b), b.out, flow)
  {
    hide IsRunSeq, Reaches, MayCatch, SimulatesSeq, Passes, Mark, Lands, HandlerEnv;
    CatchLands(g, start, trace, source, hfs[i].entry, hs[i].body, HandlerEnv(e, hs[i], incoming), hfs[i].flow, flow, b);
  }

  lemma TryExceptSimulates(
    g: Graph, s: Stmt, e: Env, start: BlockId, before: Trace, tflow: Flow, hfs: seq<HandlerFlow>, flow: Flow)
    requires s.TryExcept? && |Effective(s.handlers)| == |hfs|
    requires SimulatesSeq(g, s.body, e, start, before, tflow)
    requires tflow.normal.Some? ==>
               && flow.normal.Some? && flow.normal.value < |g.blocks| && g.Content(flow.normal.value) == []
               && g.Links(tflow.normal.value, [], flow.normal.value)
    requires forall t :: t in Others(tflow.transfers) ==> t in flow.transfers
    requires HandlersPass(g, e, FactsOf(OutsSeq(s.body, e)), Effective(s.handlers), hfs, flow)
    requires AllDispatched(g, e.index, Effective(s.handlers), hfs, Exceptions(tflow.transfers), flow.transfers)
    ensures Simulates(g, s, e, start, before, flow)
  {
    hide Reaches, HandlersPass, AllDispatched, OutsSeq, MayCatch, Escapes;
    forall r | IsRun(s, e, r) ensures Lands(g, start, before + Events(r), r.out, flow) {
      var a := r.first;
      assert Lands(g, start, before + Events(a), a.out, tflow);
      if a.out.Normal? {
        ReachesNext(g, start, before + Events(a), tflow.normal.value, [], flow.normal.value);
        assert before + Events(a) + [] + [] == before + Events(r);
      } else {
        var t :| t in tflow.transfers && TransferOutcome(t) == a.out && Reaches(g, start, before + Events(a), t.source);
        SplitTransfers(tflow.transfers, t);
        if a.out.Raised? {
          RaisedLands(g, s, e, start, before, tflow, hfs, flow, r, t);
        } else {
          assert before + Events(a) == before + Events(r);
        }
      }
    }
  }

  /** The blocks in which the body and the handlers end. */
  function AllEnds(tflow: Flow, hfs: seq<HandlerFlow>): seq<BlockId> {
    Ends([tflow] + Flows(hfs))
  }

  function Flows(hfs: seq<HandlerFlow>): seq<Flow> {
    seq(|hfs|, i requires 0 <= i < |hfs| => hfs[i].flow)
  }

  lemma AllEndsJoin(walk: Walk, w: World, site: Site, body: seq<Stmt>, e: Env, k': Kont, tflow: Flow,
                    incoming: set<Fact>, hs: seq<Handler>, hfs: seq<HandlerFlow>, ts: seq<Transfer>)
    requires Guarded(walk, w, site, body, e, k', tflow) && HandlersOk(walk, w, e, incoming, hs, hfs, ts)
    ensures CanJoin(walk, w, AllEnds(tflow, hfs))
  {
    hide SimulatesSeq, Predicted, TransfersOk, AfterSeq, HandlerEnv, Feeds;
    var flows := [tflow] + Flows(hfs);
    forall x | x in AllEnds(tflow, hfs)
      ensures EndOk(w, walk.site, x, walk.k(Normal)) && (x == walk.cur || x >= |walk.start.notes|)
    {
      EndsFrom(flows, x);
      var j :| 0 <= j < |flows| && flows[j].normal == Some(x);
      if j > 0 {
        assert HandlerOk(walk, w, HandlerEnv(e, hs[j - 1], incoming), hs[j - 1], hfs[j - 1], ts);
      }
    }
  }

  lemma AllEndsJoined(g: Graph, tflow: Flow, hfs: seq<HandlerFlow>, join: Option<BlockId>, ts: seq<Transfer>)
    requires join.Some? <==> AllEnds(tflow, hfs) != []
    requires join.Some? ==>
               && join.value < |g.blocks| && g.Content(join.value) == []
               && forall x :: x in AllEnds(tflow, hfs) ==> g.Links(x, [], join.value)
    requires forall j, t :: 0 <= j < |hfs| && t in hfs[j].flow.transfers ==> t in ts
    ensures forall j :: 0 <= j < |hfs| ==> Passes(g, hfs[j].flow, Flow(join, ts))
    ensures tflow.normal.Some? ==> join.Some? && g.Links(tflow.normal.value, [], join.value)
    ensures join.Some? <==> tflow.normal.Some? || exists j :: 0 <= j < |hfs| && hfs[j].flow.normal.Some?
  {
    var flows := [tflow] + Flows(hfs);
    if tflow.normal.Some? {
      EndsContain(flows, 0);
    }
    forall j | 0 <= j < |hfs| && hfs[j].flow.normal.Some? ensures hfs[j].flow.normal.value in AllEnds(tflow, hfs) {
      assert flows[j + 1] == hfs[j].flow;
      EndsContain(flows, j + 1);
    }
    if join.Some? {
      var x := AllEnds(tflow, hfs)[0];
      assert x in AllEnds(tflow, hfs);
      EndsFrom(flows, x);
      var j :| 0 <= j < |flows| && flows[j].normal == Some(x);
      if j > 0 {
        assert flows[j] == hfs[j - 1].flow;
      }
    }
  }

  // ---- Predicted completions

  /** The exceptions that may leave the statement. */
  ghost predicate Escaped(index: TypeIndex, hs: seq<Handler>, exc: seq<Transfer>, kept: seq<Transfer>) {
    forall t :: t in kept <==> t in exc && Escapes(index, hs, FactOf(t))
  }

  lemma PassedOutcomes(s: Stmt, e: Env, tflow: Flow, kept: seq<Transfer>)
    requires s.TryExcept? && Predicted(tflow, CompletesSeq(s.body), OutsSeq(s.body, e))
    requires Escaped(e.index, Effective(s.handlers), Exceptions(tflow.transfers), kept)
    ensures Outcomes(Others(tflow.transfers) + kept)
            == set o | o in OutsSeq(s.body, e) && (o.Raised? ==> Escapes(e.index, s.handlers, o.fact))
  {
    hide OutsSeq, CompletesSeq, Escapes;
    var ts := Others(tflow.transfers) + kept;
    var outs := OutsSeq(s.body, e);
    forall o | o in Outcomes(ts) ensures o in outs && (o.Raised? ==> Escapes(e.index, s.handlers, o.fact)) {
      var t :| t in ts && TransferOutcome(t) == o;
      SplitTransfers(tflow.transfers, t);
      assert t in tflow.transfers && TransferOutcome(t) in Outcomes(tflow.transfers);
      EffectiveEscapes(e.index, s.handlers, FactOf(t));
    }
    forall o | o in outs && (o.Raised? ==> Escapes(e.index, s.handlers, o.fact)) ensures o in Outcomes(ts) {
      var t :| t in tflow.transfers && TransferOutcome(t) == o;
      SplitTransfers(tflow.transfers, t);
      EffectiveEscapes(e.index, s.handlers, FactOf(t));
      assert t in ts;
    }
  }

  ghost predicate HandlersPredicted(e: Env, incoming: set<Fact>, hs: seq<Handler>, ts: seq<Transfer>) {
    Outcomes(ts) == OutsHandlers(hs, e, incoming)
  }

  lemma HandlersPredictedNext(e: Env, incoming: set<Fact>, hs: seq<Handler>, ts: seq<Transfer>, h: Handler, flow: Flow)
    requires HandlersPredicted(e, incoming, hs, ts)
    requires Predicted(flow, CompletesSeq(h.body), OutsSeq(h.body, HandlerEnv(e, h, incoming)))
    ensures HandlersPredicted(e, incoming, hs + [h], ts + flow.transfers)
  {
    hide OutsSeq, CompletesSeq, HandlerEnv;
    OutcomesAppend(ts, flow.transfers);
    var all := hs + [h];
    assert all[..|all| - 1] == hs;
  }

  lemma TryExceptPredicted(
    s: Stmt, e: Env, tflow: Flow, kept: seq<Transfer>, hfs: seq<HandlerFlow>, hts: seq<Transfer>, join: Option<BlockId>)
    requires s.TryExcept? && |hfs| == |Effective(s.handlers)|
    requires Predicted(tflow, CompletesSeq(s.body), OutsSeq(s.body, e))
    requires Escaped(e.index, Effective(s.handlers), Exceptions(tflow.transfers), kept)
    requires HandlersPredicted(e, FactsOf(OutsSeq(s.body, e)), Effective(s.handlers), hts)
    requires forall j :: 0 <= j < |hfs| ==> (hfs[j].flow.normal.Some? <==> CompletesSeq(Effective(s.handlers)[j].body))
    requires join.Some? <==> tflow.normal.Some? || exists j :: 0 <= j < |hfs| && hfs[j].flow.normal.Some?
    ensures Predicted(Flow(join, Others(tflow.transfers) + kept + hts), Completes(s), Outs(s, e))
  {
    PassedOutcomes(s, e, tflow, kept);
    OutcomesAppend(Others(tflow.transfers) + kept, hts);
    var incoming := FactsOf(OutsSeq(s.body, e));
    if s.handlers == [] {
      var h := CatchAll([]);
      assert [h][..0] == [] && [h][0] == h;
      assert OutsHandlers([h], e, incoming) == {};
      assert hfs[0].flow.normal.Some?;
    }
    hide Escapes, OutsSeq, OutsHandlers, Escaped, HandlersPredicted;
    assert Completes(s) <==> join.Some?;
  }

  /** The block after the statement ends it. */
  lemma TryExceptEnds(
    ex: Excepting, w: World, hfs: seq<HandlerFlow>, kept: seq<Transfer>, ts: seq<Transfer>,
    join: Option<BlockId>)
    requires ex.stmt.TryExcept? && ex.Ok(w, Effective(ex.stmt.handlers), hfs, ts)
    requires (join.Some? <==> AllEnds(ex.body, hfs) != [])
    requires join.Some? ==>
               && Reserved(ex.walk, w, join.value, Note(ex.walk.k(Normal), ex.walk.site.scopes, Plain))
               && forall x :: x in AllEnds(ex.body, hfs) ==> w.graph.Links(x, [], join.value)
    requires Escaped(ex.env.index, Effective(ex.stmt.handlers), Exceptions(ex.body.transfers), kept)
    requires AllDispatched(w.graph, ex.env.index, Effective(ex.stmt.handlers), hfs, Exceptions(ex.body.transfers),
                           Others(ex.body.transfers) + kept + ts)
    ensures var flow := Flow(join, Others(ex.body.transfers) + kept + ts);
            && Finished(ex.walk, w, flow)
            && Simulates(w.graph, ex.stmt, ex.env, ex.walk.cur, ex.walk.start.graph.Content(ex.walk.cur), flow)
            && Predicted(flow, Completes(ex.stmt), Outs(ex.stmt, ex.env))
  {
    hide Simulates, Predicted, Completes, Outs, AllDispatched, Escaped, AllEnds, Finished;
    var all := Others(ex.body.transfers) + kept + ts;
    TryExceptFinished(ex, w, hfs, kept, ts, join);
    TryExceptPass(ex, w, hfs, ts, all, join);
    TryExceptSimulates(w.graph, ex.stmt, ex.env, ex.walk.cur, ex.walk.start.graph.Content(ex.walk.cur), ex.body, hfs,
                       Flow(join, all));
    TryExceptPredicted(ex.stmt, ex.env, ex.body, kept, hfs, ts, join);
  }

  lemma TryExceptFinished(
    ex: Excepting, w: World, hfs: seq<HandlerFlow>, kept: seq<Transfer>, ts: seq<Transfer>,
    join: Option<BlockId>)
    requires ex.stmt.TryExcept? && ex.Ok(w, Effective(ex.stmt.handlers), hfs, ts)
    requires join.Some? ==> Reserved(ex.walk, w, join.value, Note(ex.walk.k(Normal), ex.walk.site.scopes, Plain))
    requires Escaped(ex.env.index, Effective(ex.stmt.handlers), Exceptions(ex.body.transfers), kept)
    ensures Finished(ex.walk, w, Flow(join, Others(ex.body.transfers) + kept + ts))
  {
    hide SimulatesSeq, Predicted, HandlersOk, HandlersPredicted, AfterSeq, WorldOk, Extends, Escapes, Others;
    hide Exceptions, CompletesSeq, OutsSeq;
    GuardTransfers(w, ex.walk.site, ex.id, ex.body.transfers, ex.walk.k, ex.Inner());
    forall t | t in kept ensures TransferOk(w, ex.walk.site, t, ex.walk.k) {
      SplitTransfers(ex.body.transfers, t);
      assert TransferOk(w, ex.Guard(), t, ex.Inner());
      EffectiveEscapes(ex.env.index, ex.stmt.handlers, FactOf(t));
      EscapeOk(ex.walk, w, ex.id, t, ex.env, ex.stmt.handlers, ex.Incoming());
    }
    FeedsSelf(ex.walk.k(Normal), ex.walk.k(Normal));
  }

  lemma TryExceptPass(
    ex: Excepting, w: World, hfs: seq<HandlerFlow>, ts: seq<Transfer>, all: seq<Transfer>, join: Option<BlockId>)
    requires ex.stmt.TryExcept? && ex.Ok(w, Effective(ex.stmt.handlers), hfs, ts)
    requires (join.Some? <==> AllEnds(ex.body, hfs) != [])
    requires join.Some? ==>
               && Reserved(ex.walk, w, join.value, Note(ex.walk.k(Normal), ex.walk.site.scopes, Plain))
               && forall x :: x in AllEnds(ex.body, hfs) ==> w.graph.Links(x, [], join.value)
    requires forall t :: t in ts ==> t in all
    ensures HandlersPass(w.graph, ex.env, ex.Incoming(), Effective(ex.stmt.handlers), hfs, Flow(join, all))
    ensures ex.body.normal.Some? ==> join.Some? && w.graph.Links(ex.body.normal.value, [], join.value)
    ensures join.Some? <==> ex.body.normal.Some? || exists j :: 0 <= j < |hfs| && hfs[j].flow.normal.Some?
    ensures forall j :: 0 <= j < |hfs| ==>
            (hfs[j].flow.normal.Some? <==> CompletesSeq(Effective(ex.stmt.handlers)[j].body))
  {
    hide Holding, Guarded, HandlersPredicted, AfterSeq, AllEnds, CompletesSeq, OutsSeq, SimulatesSeq, Passes;
    hide HandlerEnv, EndOk;
    var hs := Effective(ex.stmt.handlers);
    forall j | 0 <= j < |hfs|
      ensures HandlerOk(ex.walk, w, HandlerEnv(ex.env, hs[j], ex.Incoming()), hs[j], hfs[j], ts) {
    }
    AllEndsJoined(w.graph, ex.body, hfs, join, all);
  }
}
