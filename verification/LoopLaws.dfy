/** Loops: the context of the body, routing of jumps, and the runs of the whole loop. */
module LoopLaws {
  import opened ExceptionTypes
  import opened PascalSyntax
  import opened StructuredRuns
  import opened Continuations
  import opened ControlFlowGraph
  import opened PendingTransfers
  import opened ScopePlacement
  import opened BuilderWorld
  import opened BuilderLaws
  import opened SequenceLaws
  import opened BranchLaws

  // ---- Entering a loop or a guarded region: a new base for abrupt completions

  function WithBase(w: World, key: (seq<LoopFrame>, seq<nat>), base: Base): World {
    w.(bases := w.bases[key := base])
  }

  lemma SameGraph(w: World, w': World)
    requires GraphOk(w) && w'.graph == w.graph && w'.notes == w.notes && w'.closed == w.closed
    ensures GraphOk(w')
  {
    hide Feeds, ScopeStep, TextOf;
    forall e | e in w'.graph.edges ensures EdgeOk(w', e) {
      assert EdgeOk(w, e);
    }
  }

  /** A step that leaves the graph and the cache alone. */
  lemma SideStep(walk: Walk, w: World, w': World, ts: seq<Transfer>)
    requires Holding(walk, w, ts)
    requires w'.graph == w.graph && w'.notes == w.notes && w'.closed == w.closed && w'.cache == w.cache
    requires w'.origin == w.origin
    requires Keeps(w.returnIds, w'.returnIds) && Keeps(w.bases, w'.bases)
    requires w.nextDispatch <= w'.nextDispatch && w.nextReturn <= w'.nextReturn
    requires BasesOk(w') && ReturnsOk(w')
    ensures Holding(walk, w', ts) && Extends(w, w', {})
  {
    hide EdgeOk, Feeds, CachedOk, OriginOk, BasesOk, ReturnsOk, Labelled, TextOf;
    assert Extends(w, w', {});
    SameGraph(w, w');
    hide GraphOk;
    LabelsKept(walk.program, w, w');
    CacheKept(walk.program, w, w', {});
    OriginsKept(walk.program, w, w', walk.keys);
    ExtendsTrans(walk.start, w, w', walk.Touched(), {}, walk.Touched());
    TransfersKept(w, w', {}, walk.site, ts, walk.k);
  }

  lemma BaseStep(walk: Walk, w: World, ts: seq<Transfer>, key: (seq<LoopFrame>, seq<nat>), base: Base)
    requires Holding(walk, w, ts) && key !in w.bases
    requires forall f :: f in key.0 ==> FrameBelow(f, |w.notes|)
    requires forall d :: d in key.1 ==> d < w.nextDispatch
    ensures Holding(walk, WithBase(w, key, base), ts) && Extends(w, WithBase(w, key, base), {})
  {
    hide GraphOk, Labelled, CacheOk, OriginsOk, TransfersOk, Extends, NewKeys;
    SideStep(walk, w, WithBase(w, key, base), ts);
  }

  /** A frame with a new block belongs to no known loop stack. */
  lemma FrameFresh(w: World, loops: seq<LoopFrame>, dispatch: seq<nat>, frame: LoopFrame, n: nat)
    requires BasesOk(w) && |w.notes| <= n && frame.breakTarget >= n
    ensures (loops + [frame], dispatch) !in w.bases
  {
    var key := (loops + [frame], dispatch);
    assert key.0[|loops|] == frame;
    assert frame in key.0 && !FrameBelow(frame, |w.notes|);
  }

  ghost function LoopSite(site: Site, frame: LoopFrame): Site {
    site.(loops := site.loops + [frame])
  }

  /** The walk of a loop body. */
  ghost function LoopWalk(walk: Walk, w: World, frame: LoopFrame, b: BlockId, body: seq<Stmt>, k: Kont): Walk {
    walk.(start := w, cur := b, scopes := ScopesInSeq(body), site := LoopSite(walk.site, frame), k := k)
  }

  /** Deeper inside the same finalizer. */
  lemma ActiveDeeper(p: Program, w: World, site: Site, inner: Site, active: Option<nat>, keys: set<CacheKey>)
    requires ActiveOk(p, w, site, active, keys) && SitePrefix(site, inner)
    ensures ActiveOk(p, w, inner, active, keys)
  {
    if active.Some? {
      var key :| key in keys && ReturnsAs(w, key, active.value) && SitePrefix(key.site, site) && AtPlacement(p, key);
      assert SitePrefix(key.site, inner);
    }
  }

  lemma InnerCanWalk(
    walk: Walk, active: Option<nat>, future: Future, w: World, ts: seq<Transfer>,
    b: BlockId, body: seq<Stmt>, e: Env, site: Site, k: Kont, used: set<ScopeId>, kind: BlockKind)
    requires CanWalk(walk, active, future) && Holding(walk, w, ts)
    requires SitePrefix(walk.site, site) && Follows(walk.program, w, site, k)
    requires Reserved(walk, w, b, Note(AfterSeq(body, e, k), site.scopes, kind))
    requires NewKeys(walk.start, w, used) && used !! ScopesInSeq(body) && ScopesInSeq(body) <= walk.scopes
    requires Apart(site, walk.keys, ScopesInSeq(body)) && ScopesPlaced(walk.program, site)
    ensures CanWalk(walk.(start := w, cur := b, scopes := ScopesInSeq(body), site := site, k := k), active,
                    AfterSeq(body, e, k))
  {
    hide WorldOk, AfterSeq, ScopesInSeq, Grown, TransfersOk, Follows, Apart, ScopesPlaced;
    ActiveKept(walk.program, walk.start, w, walk.site, active, walk.keys);
    ActiveDeeper(walk.program, w, walk.site, site, active, walk.keys);
    FreshKept(walk.start, w, walk.site, active, walk.scopes, used, ScopesInSeq(body));
    FeedsSelf(AfterSeq(body, e, k), AfterSeq(body, e, k));
  }

  /** Inside the loop, abrupt completions start from the base of the loop itself. */
  lemma LoopFollows(p: Program, w: World, site: Site, frame: LoopFrame, k: Kont)
    requires (site.loops + [frame], site.dispatch) in w.bases
    requires w.bases[(site.loops + [frame], site.dispatch)] == Base(k, |site.scopes|)
    ensures Follows(p, w, LoopSite(site, frame), k)
  {
    assert LoopSite(site, frame).scopes[|site.scopes|..] == [];
  }

  lemma LoopApart(site: Site, frame: LoopFrame, keys: set<CacheKey>, scopes: set<ScopeId>, inner: set<ScopeId>)
    requires Apart(site, keys, scopes) && inner <= scopes
    requires frame.breakScopes == site.scopes && frame.continueScopes == site.scopes
    ensures Apart(LoopSite(site, frame), keys, inner)
  {
    assert forall f :: f in LoopSite(site, frame).loops ==> f in site.loops || f == frame;
  }

  lemma LoopCanWalk(
    walk: Walk, active: Option<nat>, future: Future, w: World, ts: seq<Transfer>, frame: LoopFrame, b: BlockId,
    body: seq<Stmt>, e: Env, k: Kont)
    requires CanWalk(walk, active, future) && Holding(walk, w, ts)
    requires ((walk.site.loops + [frame], walk.site.dispatch)) in w.bases
    requires w.bases[(walk.site.loops + [frame], walk.site.dispatch)] == Base(k, |walk.site.scopes|)
    requires frame.breakScopes == walk.site.scopes && frame.continueScopes == walk.site.scopes
    requires Reserved(walk, w, b, Note(AfterSeq(body, e, k), walk.site.scopes, Plain))
    requires NewKeys(walk.start, w, {}) && ScopesInSeq(body) <= walk.scopes
    ensures CanWalk(LoopWalk(walk, w, frame, b, body, k), active, AfterSeq(body, e, k))
    ensures LoopSite(walk.site, frame).Depths() == walk.site.Depths().InLoop()
  {
    hide WorldOk, AfterSeq, ScopesInSeq, Grown, TransfersOk, Follows, FreshFor, ActiveOk, EndOk, Apart, Holding;
    hide Reserved;
    var inner := LoopSite(walk.site, frame);
    LoopFollows(walk.program, w, walk.site, frame, k);
    LoopApart(walk.site, frame, walk.keys, walk.scopes, ScopesInSeq(body));
    InnerCanWalk(walk, active, future, w, ts, b, body, e, inner, k, {}, Plain);
  }

  /** The frame of a loop with new blocks can be entered as a new base. */
  lemma LoopBase(walk: Walk, active: Option<nat>, future: Future, w: World, frame: LoopFrame, k': Kont)
    requires CanWalk(walk, active, future) && Holding(walk, w, []) && w.cache == walk.start.cache
    requires w.bases == walk.start.bases
    requires FrameBelow(frame, |w.notes|) && frame.breakTarget >= |walk.start.notes|
    ensures (walk.site.loops + [frame], walk.site.dispatch) !in w.bases
    ensures Holding(walk, WithBase(w, (walk.site.loops + [frame], walk.site.dispatch), Base(k', |walk.site.scopes|)),
                    [])
    ensures Extends(w, WithBase(w, (walk.site.loops + [frame], walk.site.dispatch), Base(k', |walk.site.scopes|)), {})
  {
    var key := (walk.site.loops + [frame], walk.site.dispatch);
    FrameFresh(walk.start, walk.site.loops, walk.site.dispatch, frame, |walk.start.notes|);
    assert (walk.site.loops, walk.site.dispatch) in w.bases;
    hide CacheOk, ReturnsOk, OriginsOk, Labelled, Extends, TransfersOk, ActiveOk, FreshFor, Apart, EndOk, Feeds;
    hide PendingFuture;
    forall f | f in key.0 ensures FrameBelow(f, |w.notes|) {
      if f != frame {
        assert f in walk.site.loops;
      }
    }
    forall d | d in key.1 ensures d < w.nextDispatch {
    }
    BaseStep(walk, w, [], key, Base(k', |walk.site.scopes|));
  }

  /** The loop body has been walked; the outer walk may go on. */
  lemma LoopBodyDone(walk: Walk, w0: World, w1: World, w2: World, inner: Walk, flow: Flow)
    requires Holding(walk, w0, []) && Holding(walk, w1, []) && Extends(w0, w1, {}) && |w1.notes| == |w0.notes|
    requires inner.start == w1 && inner.program == walk.program && inner.keys == walk.keys
    requires w0.Has(inner.cur) && inner.cur >= |walk.start.notes| && inner.cur !in w1.closed && inner.cur !in w0.closed
    requires inner.scopes <= walk.scopes && inner.site.scopes == walk.site.scopes
    requires Finished(inner, w2, flow)
    ensures Holding(walk, w2, []) && Extends(w0, w2, {inner.cur})
    ensures TransfersOk(w2, inner.site, flow.transfers, inner.k)
    ensures flow.normal.Some? ==>
              && EndOk(w2, walk.site, flow.normal.value, inner.k(Normal))
              && (flow.normal.value == inner.cur || flow.normal.value >= |w0.notes|)
  {
    hide CacheOk, BasesOk, ReturnsOk, OriginsOk, Labelled, Grown, TransfersOk, EdgeOk, Feeds;
    HoldingWalk(walk, w1, [], inner, w2, flow.transfers);
    assert inner.Touched() == {inner.cur};
    ExtendsTrans(w0, w1, w2, {}, {inner.cur}, {inner.cur});
  }

  // ---- Routing the jumps of the body

  /** Breaks lead to `after`, continues to `head`, everything else stays pending. */
  ghost predicate Routed(g: Graph, ts: seq<Transfer>, head: BlockId, after: BlockId, kept: seq<Transfer>) {
    forall t :: t in ts ==>
      && (TransferOutcome(t).Broke? ==> g.Links(t.source, [], after))
      && (TransferOutcome(t).Continued? ==> g.Links(t.source, [], head))
      && (!TransferOutcome(t).Broke? && !TransferOutcome(t).Continued? ==> t in kept)
  }

  lemma RoutedGrown(
    g: Graph, g': Graph, touched: set<BlockId>, ts: seq<Transfer>, head: BlockId, after: BlockId,
    kept: seq<Transfer>, more: seq<Transfer>)
    requires Routed(g, ts, head, after, kept) && Grown(g, g', touched)
    requires forall t :: t in kept ==> t in more
    ensures Routed(g', ts, head, after, more)
  {
    forall t | t in ts
      ensures TransferOutcome(t).Broke? ==> g'.Links(t.source, [], after)
      ensures TransferOutcome(t).Continued? ==> g'.Links(t.source, [], head)
    {
      if TransferOutcome(t).Broke? {
        EdgeGrown(g, g', touched, t.source, [], after);
      }
      if TransferOutcome(t).Continued? {
        EdgeGrown(g, g', touched, t.source, [], head);
      }
    }
  }

  /** A transfer of the body that the loop does not consume waits outside it as well. */
  lemma LeavesLoop(w: World, site: Site, frame: LoopFrame, t: Transfer, k: Kont, k': Kont)
    requires TransferOk(w, LoopSite(site, frame), t, k')
    requires !TransferOutcome(t).Broke? && !TransferOutcome(t).Continued?
    requires forall o: Outcome :: !o.Normal? && !o.Broke? && !o.Continued? ==> k'(o) == k(o)
    ensures TransferOk(w, site, t, k)
  {}

  /** A jump of the body names this loop's blocks. */
  lemma JumpTargets(w: World, site: Site, frame: LoopFrame, t: Transfer, k: Kont)
    requires TransferOk(w, LoopSite(site, frame), t, k)
    ensures t.kind.ToBreak? ==> t.target == Some(frame.breakTarget) && TransferOutcome(t) == Broke
    ensures t.kind.ToContinue? ==> t.target == Some(frame.continueTarget) && TransferOutcome(t) == Continued
    ensures !t.kind.ToBreak? && !t.kind.ToContinue? ==> !TransferOutcome(t).Broke? && !TransferOutcome(t).Continued?
  {}

  /** What the jumps of a loop body keep pending after the loop. */
  ghost predicate KeptOutcomes(ts: seq<Transfer>, kept: seq<Transfer>) {
    Outcomes(kept) == Outcomes(ts) - {Broke, Continued}
  }

  lemma NoJumps(g: Graph, head: BlockId, after: BlockId)
    ensures Routed(g, [], head, after, []) && KeptOutcomes([], [])
  {}

  lemma WaitingTransfer(w: World, site: Site, ts: seq<Transfer>, i: nat, k: Kont)
    requires i < |ts| && TransfersOk(w, site, ts, k)
    ensures TransferOk(w, site, ts[i], k)
  {}

  lemma HoldingOne(walk: Walk, w: World, ts: seq<Transfer>, t: Transfer)
    requires Holding(walk, w, ts) && TransferOk(w, walk.site, t, walk.k)
    ensures Holding(walk, w, ts + [t])
  {
    hide WorldOk, Extends, TransferOk;
    HoldingMore(walk, w, ts, [t]);
  }

  lemma KeptStep(ts: seq<Transfer>, t: Transfer, kept: seq<Transfer>)
    requires KeptOutcomes(ts, kept)
    ensures TransferOutcome(t) in {Broke, Continued} ==> KeptOutcomes(ts + [t], kept)
    ensures TransferOutcome(t) !in {Broke, Continued} ==> KeptOutcomes(ts + [t], kept + [t])
  {
    OutcomesAppend(ts, [t]);
    OutcomesAppend(kept, [t]);
    assert [t][0] in [t];
    assert Outcomes([t]) == {TransferOutcome(t)};
  }

  // ---- The blocks of a loop

  /** The header leads into the body, or out of the loop. */
  ghost predicate LoopEdges(g: Graph, head: BlockId, b: BlockId, after: BlockId) {
    g.Links(head, Mark(ConditionalTrue), b) && g.Links(head, Mark(LoopExit), after)
  }

  /** The condition of a repeat loop leads back to the body, or out of the loop. */
  ghost predicate RepeatEdges(g: Graph, head: BlockId, b: BlockId, after: BlockId) {
    g.Links(head, Mark(LoopBack), b) && g.Links(head, Mark(LoopExit), after)
  }

  /** A `for` or `while` loop whose header is in place and whose body has not been joined. */
  ghost predicate LoopOpen(walk: Walk, w: World, s: Stmt, head: BlockId, b: BlockId, after: BlockId, future: Future)
    requires s.Loop?
  {
    && w.Has(walk.cur) && walk.cur in w.closed && w.graph.Content(walk.cur) == walk.start.graph.Content(walk.cur)
    && w.Has(head) && head in w.closed && head >= |walk.start.notes| && w.graph.Content(head) == Refs([s.id])
    && w.notes[head] == Note(future, walk.site.scopes, Plain)
    && w.graph.Links(walk.cur, [], head) && LoopEdges(w.graph, head, b, after)
    && Reserved(walk, w, after, Note(walk.k(Normal), walk.site.scopes, Plain))
  }

  lemma LoopOpenKept(
    walk: Walk, w: World, w': World, touched: set<BlockId>, s: Stmt, head: BlockId, b: BlockId, after: BlockId,
    future: Future)
    requires s.Loop? && GraphOk(w) && Extends(w, w', touched) && GraphOk(w')
    requires LoopOpen(walk, w, s, head, b, after, future) && after !in touched
    ensures LoopOpen(walk, w', s, head, b, after, future)
  {
    ContentKept(w, w', touched, walk.cur);
    ContentKept(w, w', touched, head);
    ReservedKept(walk, w, w', touched, after, Note(walk.k(Normal), walk.site.scopes, Plain));
    EdgeGrown(w.graph, w'.graph, touched, walk.cur, [], head);
    EdgeGrown(w.graph, w'.graph, touched, head, Mark(ConditionalTrue), b);
    EdgeGrown(w.graph, w'.graph, touched, head, Mark(LoopExit), after);
  }

  lemma LoopBlocks(
    walk: Walk, w: World, s: Stmt, head: BlockId, b: BlockId, after: BlockId, future: Future, inside: Future)
    requires s.Loop? && LoopOpen(walk, w, s, head, b, after, future)
    requires Reserved(walk, w, b, Note(inside, walk.site.scopes, Plain))
    ensures |walk.start.notes| <= head < |w.notes| && |walk.start.notes| <= after < |w.notes|
    ensures |walk.start.notes| <= b < |w.notes|
  {}

  /** A `repeat` loop whose condition block is still empty. */
  ghost predicate RepeatOpen(walk: Walk, w: World, s: Stmt, head: BlockId, b: BlockId, after: BlockId, e: Env)
    requires s.Repeat?
  {
    && w.Has(walk.cur) && walk.cur in w.closed && w.graph.Content(walk.cur) == walk.start.graph.Content(walk.cur)
    && w.Has(b) && w.notes[b] == Note(TurnFuture(s, e, walk.k), walk.site.scopes, Plain)
    && w.graph.Links(walk.cur, [], b) && head != after
    && Reserved(walk, w, head, Note(RepeatCondition(s, e, walk.k), walk.site.scopes, Plain))
    && Reserved(walk, w, after, Note(walk.k(Normal), walk.site.scopes, Plain))
  }

  lemma RepeatOpenKept(
    walk: Walk, w: World, w': World, touched: set<BlockId>, s: Stmt, head: BlockId, b: BlockId, after: BlockId, e: Env)
    requires s.Repeat? && GraphOk(w) && Extends(w, w', touched) && GraphOk(w')
    requires RepeatOpen(walk, w, s, head, b, after, e) && head !in touched && after !in touched
    ensures RepeatOpen(walk, w', s, head, b, after, e)
  {
    hide AfterSeq, RepeatCondition;
    ContentKept(w, w', touched, walk.cur);
    ReservedKept(walk, w, w', touched, head, Note(RepeatCondition(s, e, walk.k), walk.site.scopes, Plain));
    ReservedKept(walk, w, w', touched, after, Note(walk.k(Normal), walk.site.scopes, Plain));
    EdgeGrown(w.graph, w'.graph, touched, walk.cur, [], b);
  }

  /** What the parts of the repeat condition lead to. */
  lemma RepeatHeadFeeds(s: Stmt, e: Env, k: Kont)
    requires s.Repeat?
    ensures var c := RepeatCondition(s, e, k);
            && Feeds(Refs([s.keyword, s.condition]) + Mark(LoopExit), k(Normal), c)
            && Feeds(Refs([s.keyword, s.condition]), k(Implicit), c)
            && Feeds(Refs([s.keyword, s.condition]) + Mark(LoopBack), TurnFuture(s, e, k), c)
  {
    hide IsRun, IsRunSeq, AfterSeq, Refs, Mark;
    var ev := Refs([s.keyword, s.condition]);
    RepeatBodyFeeds(s, e, k);
    hide After;
    ConditionFeeds(ev, Behind(Mark(LoopExit), k(Normal)), k(Implicit), Behind(Mark(LoopBack), After(s, e, k)));
    hide Behind, Feeds;
    FeedsBehind(ev, Mark(LoopExit), k(Normal), RepeatCondition(s, e, k));
    FeedsBehind(ev, Mark(LoopBack), After(s, e, k), RepeatCondition(s, e, k));
    FeedsWeaken(ev + Mark(LoopBack), TurnFuture(s, e, k), After(s, e, k), RepeatCondition(s, e, k));
  }

  lemma ConditionFeeds(ev: Trace, a: Future, b: Future, c: Future)
    ensures Feeds(ev, a, Behind(ev, a + b + c)) && Feeds(ev, b, Behind(ev, a + b + c))
    ensures Feeds(ev, c, Behind(ev, a + b + c))
  {}

  // ---- Runs of the loop

  /** From a point with an edge to the body: where one run of the body leads. */
  lemma BodyLands(
    g: Graph, start: BlockId, trace: Trace, p: BlockId, mark: Trace, b: BlockId, body: seq<Stmt>, e: Env, bflow: Flow,
    r: Run)
    requires Reaches(g, start, trace, p) && g.Links(p, mark, b)
    requires SimulatesSeq(g, body, e, b, [], bflow) && IsRunSeq(body, e, r)
    ensures Lands(g, start, trace + mark + Events(r), r.out, bflow)
  {
    hide IsRunSeq, Reaches;
    assert [] + Events(r) == Events(r);
    LandsVia(g, start, trace, p, mark, b, Events(r), r.out, bflow);
  }

  /** How the ends of the body lead on: its own end by `back`, its jumps without a mark. */
  ghost predicate Turns(g: Graph, bflow: Flow, back: Trace, head: BlockId, after: BlockId, kept: seq<Transfer>) {
    && Routed(g, bflow.transfers, head, after, kept)
    && (bflow.normal.Some? ==> g.Links(bflow.normal.value, back, head))
  }

  /** The block behind the loop. */
  ghost predicate ExitsTo(g: Graph, after: BlockId, flow: Flow) {
    after < |g.blocks| && g.Content(after) == [] && flow.normal == Some(after)
  }

  function TurnMark(out: Outcome, back: Trace): Trace {
    if out.Normal? then back else []
  }

  /** A completed turn leads back to the head, out of the loop, or stays pending. */
  lemma TurnLands(
    g: Graph, start: BlockId, trace: Trace, out: Outcome, bflow: Flow, back: Trace, head: BlockId, after: BlockId,
    flow: Flow) returns (p: BlockId)
    requires Lands(g, start, trace, out, bflow)
    requires Turns(g, bflow, back, head, after, flow.transfers) && ExitsTo(g, after, flow)
    ensures out.Normal? || out.Continued? ==> Reaches(g, start, trace, p) && g.Links(p, TurnMark(out, back), head)
    ensures !out.Normal? && !out.Continued? ==> Lands(g, start, trace, AfterBreak(out), flow)
  {
    hide Reaches, TransferOutcome;
    if out.Normal? {
      p := bflow.normal.value;
    } else {
      var t :| t in bflow.transfers && TransferOutcome(t) == out && Reaches(g, start, trace, t.source);
      p := t.source;
      if out.Broke? {
        BreakLands(g, start, trace, p, after, flow);
      }
    }
  }

  lemma BreakLands(g: Graph, start: BlockId, trace: Trace, p: BlockId, after: BlockId, flow: Flow)
    requires Reaches(g, start, trace, p) && g.Links(p, [], after) && ExitsTo(g, after, flow)
    ensures Lands(g, start, trace, Normal, flow)
  {
    hide Reaches;
    ReachesNext(g, start, trace, p, [], after);
    assert trace + [] + [] == trace;
  }

  /** The header of the loop is where it should be. */
  ghost predicate HeaderAt(g: Graph, head: BlockId, ids: seq<StmtId>, flow: Flow) {
    head < |g.blocks| && g.Content(head) == Refs(ids) && ExceptionTransfer(head, Unknown, None) in flow.transfers
  }

  lemma {:induction false} LoopLands(
    g: Graph, s: Stmt, e: Env, start: BlockId, trace: Trace, p: BlockId, mark: Trace,
    head: BlockId, b: BlockId, after: BlockId, bflow: Flow, flow: Flow, r: Run)
    requires s.Loop? && IsRun(s, e, r)
    requires Reaches(g, start, trace, p) && g.Links(p, mark, head)
    requires HeaderAt(g, head, [s.id], flow) && LoopEdges(g, head, b, after) && ExitsTo(g, after, flow)
    requires SimulatesSeq(g, s.body, e.(inLoop := true), b, [], bflow)
    requires Turns(g, bflow, Mark(LoopBack), head, after, flow.transfers)
    ensures Lands(g, start, trace + mark + Events(r), r.out, flow)
    decreases r
  {
    hide IsRun, Reaches, SimulatesSeq, Turns, IsRunSeq, Refs, Mark;
    var ev := Refs([s.id]);
    LoopCases(s, e, r);
    ReachesNext(g, start, trace, p, mark, head);
    var before := trace + mark;
    if r == Leaf(ev + Mark(LoopExit), Normal) {
      ReachesNext(g, start, before + ev, head, Mark(LoopExit), after);
      assert before + ev + Mark(LoopExit) + [] == before + Events(r);
    } else if r == Leaf(ev, Implicit) {
      assert TransferOutcome(ExceptionTransfer(head, Unknown, None)) == Implicit;
    } else {
      hide Lands, MakesTurn;
      TurnsOn(g, s, e, start, before, head, b, after, bflow, flow, r);
    }
  }

  /** The turn is made; after it the loop goes on, is left, or stays pending. */
  lemma {:induction false} TurnsOn(
    g: Graph, s: Stmt, e: Env, start: BlockId, before: Trace,
    head: BlockId, b: BlockId, after: BlockId, bflow: Flow, flow: Flow, r: Run)
    requires s.Loop? && MakesTurn(s, e, r)
    requires Reaches(g, start, before + Refs([s.id]), head)
    requires HeaderAt(g, head, [s.id], flow) && LoopEdges(g, head, b, after) && ExitsTo(g, after, flow)
    requires SimulatesSeq(g, s.body, e.(inLoop := true), b, [], bflow)
    requires Turns(g, bflow, Mark(LoopBack), head, after, flow.transfers)
    ensures Lands(g, start, before + Events(r), r.out, flow)
    decreases r, 0
  {
    hide IsRun, Reaches, SimulatesSeq, Turns, IsRunSeq, Refs, Mark, Lands, Events, ExitsTo, HeaderAt;
    var ev := Refs([s.id]);
    var out := r.first.out;
    var turn := Events(r.first.second);
    var reached := before + ev + Mark(ConditionalTrue) + turn;
    BodyLands(g, start, before + ev, head, Mark(ConditionalTrue), b, s.body, e.(inLoop := true), bflow, r.first.second);
    var q := TurnLands(g, start, reached, out, bflow, Mark(LoopBack), head, after, flow);
    if out.Normal? || out.Continued? {
      var rest := r.second.second;
      LoopLands(g, s, e, start, reached, q, BackMark(out), head, b, after, bflow, flow, rest);
      assert reached + BackMark(out) + Events(rest) == before + Events(r);
    } else {
      assert reached == before + Events(r);
    }
  }

  lemma {:induction false} RepeatLands(
    g: Graph, s: Stmt, e: Env, start: BlockId, trace: Trace, p: BlockId, mark: Trace,
    head: BlockId, b: BlockId, after: BlockId, bflow: Flow, flow: Flow, r: Run)
    requires s.Repeat? && IsRun(s, e, r)
    requires Reaches(g, start, trace, p) && g.Links(p, mark, b)
    requires HeaderAt(g, head, [s.keyword, s.condition], flow) && RepeatEdges(g, head, b, after)
    requires ExitsTo(g, after, flow) && SimulatesSeq(g, s.body, e.(inLoop := true), b, [], bflow)
    requires Turns(g, bflow, [], head, after, flow.transfers)
    ensures Lands(g, start, trace + mark + Events(r), r.out, flow)
    decreases r
  {
    hide IsRun, Reaches, SimulatesSeq, Turns, IsRunSeq, Refs, Mark, Lands, Tested;
    var ev := Refs([s.keyword, s.condition]);
    RepeatCases(s, e, r);
    BodyLands(g, start, trace, p, mark, b, s.body, e.(inLoop := true), bflow, r.first);
    var reached := trace + mark + Events(r.first);
    var q := TurnLands(g, start, reached, r.first.out, bflow, [], head, after, flow);
    assert trace + mark + Events(r) == reached + Events(r.second);
    if r.first.out.Normal? || r.first.out.Continued? {
      ReachesNext(g, start, reached, q, [], head);
      assert reached + [] + ev == reached + ev;
      RepeatTests(g, s, e, start, reached, head, b, after, bflow, flow, r.second);
    } else {
      assert reached + Events(r.second) == reached;
    }
  }

  /** From the condition: out of the loop, into an exception, or back to the body. */
  lemma {:induction false} RepeatTests(
    g: Graph, s: Stmt, e: Env, start: BlockId, reached: Trace,
    head: BlockId, b: BlockId, after: BlockId, bflow: Flow, flow: Flow, c: Run)
    requires s.Repeat? && Tested(s, e, c)
    requires Reaches(g, start, reached + Refs([s.keyword, s.condition]), head)
    requires HeaderAt(g, head, [s.keyword, s.condition], flow) && RepeatEdges(g, head, b, after)
    requires ExitsTo(g, after, flow) && SimulatesSeq(g, s.body, e.(inLoop := true), b, [], bflow)
    requires Turns(g, bflow, [], head, after, flow.transfers)
    ensures Lands(g, start, reached + Events(c), c.out, flow)
    decreases c, 0
  {
    hide IsRun, Reaches, SimulatesSeq, Turns, Refs, Mark, Lands;
    var ev := Refs([s.keyword, s.condition]);
    if c == Leaf(ev + Mark(LoopExit), Normal) {
      FallLands(g, start, reached, ev, head, Mark(LoopExit), flow);
    } else if c == Leaf(ev, Implicit) {
      RaiseLands(g, start, reached + ev, head, flow);
    } else {
      RepeatLands(g, s, e, start, reached + ev, head, Mark(LoopBack), head, b, after, bflow, flow, c.second);
      assert reached + ev + Mark(LoopBack) + Events(c.second) == reached + Events(c);
    }
  }

  lemma LoopSimulates(
    g: Graph, s: Stmt, e: Env, start: BlockId, before: Trace,
    head: BlockId, b: BlockId, after: BlockId, bflow: Flow, flow: Flow)
    requires s.Loop? && start < |g.blocks| && g.Content(start) == before && g.Links(start, [], head)
    requires HeaderAt(g, head, [s.id], flow) && LoopEdges(g, head, b, after) && ExitsTo(g, after, flow)
    requires SimulatesSeq(g, s.body, e.(inLoop := true), b, [], bflow)
    requires Turns(g, bflow, Mark(LoopBack), head, after, flow.transfers)
    ensures Simulates(g, s, e, start, before, flow)
  {
    hide IsRun, Lands, SimulatesSeq, Turns;
    ReachesHere(g, start);
    forall r | IsRun(s, e, r) ensures Lands(g, start, before + Events(r), r.out, flow) {
      LoopLands(g, s, e, start, before, start, [], head, b, after, bflow, flow, r);
      assert before + [] == before;
    }
  }

  lemma RepeatSimulates(
    g: Graph, s: Stmt, e: Env, start: BlockId, before: Trace,
    head: BlockId, b: BlockId, after: BlockId, bflow: Flow, flow: Flow)
    requires s.Repeat? && start < |g.blocks| && g.Content(start) == before && g.Links(start, [], b)
    requires HeaderAt(g, head, [s.keyword, s.condition], flow) && RepeatEdges(g, head, b, after)
    requires ExitsTo(g, after, flow) && SimulatesSeq(g, s.body, e.(inLoop := true), b, [], bflow)
    requires Turns(g, bflow, [], head, after, flow.transfers)
    ensures Simulates(g, s, e, start, before, flow)
  {
    hide IsRun, Lands, SimulatesSeq, Turns;
    ReachesHere(g, start);
    forall r | IsRun(s, e, r) ensures Lands(g, start, before + Events(r), r.out, flow) {
      RepeatLands(g, s, e, start, before, start, [], head, b, after, bflow, flow, r);
      assert before + [] == before;
    }
  }

  /** Filling in the condition block disturbs neither the body nor its routed ends. */
  lemma RepeatRouted(
    walk: Walk, w1: World, w2: World, w3: World, head: BlockId, after: BlockId, site: Site, k': Kont,
    bflow: Flow, kept: seq<Transfer>, body: seq<Stmt>, e: Env, b: BlockId)
    requires GraphOk(w2) && Extends(w2, w3, {head}) && Grown(w1.graph, w2.graph, {}) && w2.closed == w1.closed
    requires forall t :: t in bflow.transfers ==> TransferOk(w1, site, t, k')
    requires bflow.normal.Some? ==> bflow.normal.value != head && w1.graph.Links(bflow.normal.value, [], head)
    requires SimulatesSeq(w2.graph, body, e, b, [], bflow) && Routed(w2.graph, bflow.transfers, head, after, kept)
    ensures SimulatesSeq(w3.graph, body, e, b, [], bflow) && Turns(w3.graph, bflow, [], head, after, kept)
  {
    hide SimulatesSeq, Routed;
    SimulatesSeqKept(w2, w3, {head}, body, e, b, [], bflow);
    RoutedGrown(w2.graph, w3.graph, {head}, bflow.transfers, head, after, kept, kept);
    if bflow.normal.Some? {
      EdgeGrown(w1.graph, w2.graph, {}, bflow.normal.value, [], head);
      EdgeGrown(w2.graph, w3.graph, {head}, bflow.normal.value, [], head);
    }
  }

  lemma LoopPredicted(s: Stmt, e: Env, head: BlockId, after: BlockId, bflow: Flow, kept: seq<Transfer>)
    requires s.Loop? || s.Repeat?
    requires Predicted(bflow, CompletesSeq(s.body), OutsSeq(s.body, e.(inLoop := true)))
    requires KeptOutcomes(bflow.transfers, kept)
    ensures Predicted(Flow(Some(after), [ExceptionTransfer(head, Unknown, None)] + kept), Completes(s), Outs(s, e))
  {
    hide OutsSeq, CompletesSeq;
    HeadOutcomes(head, kept);
  }

  /** The exception that the header of a loop may raise. */
  lemma HeaderTransferOk(walk: Walk, w: World, head: BlockId, ids: seq<StmtId>)
    requires w.Has(head) && head in w.closed && w.notes[head].scopes == walk.site.scopes
    requires w.graph.Content(head) == Refs(ids) && Feeds(Refs(ids), walk.k(Implicit), w.notes[head].future)
    ensures TransfersOk(w, walk.site, [ExceptionTransfer(head, Unknown, None)], walk.k)
  {
    assert TransferOutcome(ExceptionTransfer(head, Unknown, None)) == Implicit;
  }

  /** The loop is complete: it falls through to its exit block. */
  lemma LoopFinished(walk: Walk, w: World, head: BlockId, after: BlockId, kept: seq<Transfer>)
    requires Holding(walk, w, kept) && TransfersOk(w, walk.site, [ExceptionTransfer(head, Unknown, None)], walk.k)
    requires Reserved(walk, w, after, Note(walk.k(Normal), walk.site.scopes, Plain))
    ensures Finished(walk, w, Flow(Some(after), [ExceptionTransfer(head, Unknown, None)] + kept))
  {
    hide WorldOk, Extends, TransferOk;
    FeedsSelf(walk.k(Normal), walk.k(Normal));
  }

  lemma TurnsMore(g: Graph, bflow: Flow, back: Trace, head: BlockId, after: BlockId, kept: seq<Transfer>, t: Transfer)
    requires Turns(g, bflow, back, head, after, kept)
    ensures Turns(g, bflow, back, head, after, [t] + kept)
  {
    GrownSelf(g);
    RoutedGrown(g, g, {}, bflow.transfers, head, after, kept, [t] + kept);
  }

  /** The flow of a finished loop. */
  function LoopFlow(head: BlockId, after: BlockId, kept: seq<Transfer>): Flow {
    Flow(Some(after), [ExceptionTransfer(head, Unknown, None)] + kept)
  }

  lemma LoopEnds(
    walk: Walk, w: World, s: Stmt, e: Env, head: BlockId, b: BlockId, after: BlockId, bflow: Flow, kept: seq<Transfer>)
    requires s.Loop? && Holding(walk, w, kept) && LoopOpen(walk, w, s, head, b, after, After(s, e, walk.k))
    requires SimulatesSeq(w.graph, s.body, e.(inLoop := true), b, [], bflow)
    requires Predicted(bflow, CompletesSeq(s.body), OutsSeq(s.body, e.(inLoop := true)))
    requires Turns(w.graph, bflow, Mark(LoopBack), head, after, kept) && KeptOutcomes(bflow.transfers, kept)
    ensures Finished(walk, w, LoopFlow(head, after, kept))
    ensures Simulates(w.graph, s, e, walk.cur, walk.start.graph.Content(walk.cur), LoopFlow(head, after, kept))
    ensures Predicted(LoopFlow(head, after, kept), Completes(s), Outs(s, e))
  {
    hide Mark, Holding, SimulatesSeq, Simulates, Predicted, Turns, KeptOutcomes, Finished, Refs;
    LeafFeeds(s, e, walk.k, Refs([s.id]), Implicit);
    hide IsRun, After, Feeds;
    var flow := LoopFlow(head, after, kept);
    HeaderTransferOk(walk, w, head, [s.id]);
    LoopFinished(walk, w, head, after, kept);
    LoopPredicted(s, e, head, after, bflow, kept);
    TurnsMore(w.graph, bflow, Mark(LoopBack), head, after, kept, ExceptionTransfer(head, Unknown, None));
    LoopSimulates(w.graph, s, e, walk.cur, walk.start.graph.Content(walk.cur), head, b, after, bflow, flow);
  }

  /** A `repeat` loop whose condition block is filled in. */
  ghost predicate RepeatFilled(walk: Walk, w: World, s: Stmt, head: BlockId, b: BlockId, after: BlockId, e: Env)
    requires s.Repeat?
  {
    && w.Has(walk.cur) && walk.cur in w.closed && w.graph.Content(walk.cur) == walk.start.graph.Content(walk.cur)
    && w.Has(b) && w.notes[b] == Note(TurnFuture(s, e, walk.k), walk.site.scopes, Plain)
    && w.graph.Links(walk.cur, [], b)
    && w.Has(head) && head in w.closed && w.graph.Content(head) == Refs([s.keyword, s.condition])
    && w.notes[head] == Note(RepeatCondition(s, e, walk.k), walk.site.scopes, Plain)
    && Reserved(walk, w, after, Note(walk.k(Normal), walk.site.scopes, Plain))
  }

  ghost predicate RepeatClosed(walk: Walk, w: World, s: Stmt, head: BlockId, b: BlockId, after: BlockId, e: Env)
    requires s.Repeat?
  {
    RepeatFilled(walk, w, s, head, b, after, e) && RepeatEdges(w.graph, head, b, after)
  }

  lemma FillStep(walk: Walk, w: World, w': World, s: Stmt, head: BlockId, b: BlockId, after: BlockId, e: Env)
    requires s.Repeat? && RepeatOpen(walk, w, s, head, b, after, e) && GraphOk(w) && GraphOk(w')
    requires Extends(w, w', {head}) && head in w'.closed && w'.graph.Content(head) == Refs([s.keyword, s.condition])
    requires walk.cur != head && b != head
    ensures RepeatFilled(walk, w', s, head, b, after, e)
  {
    hide TurnFuture, RepeatCondition, Mark, EdgeOk, Refs, TextOf;
    ContentKept(w, w', {head}, walk.cur);
    ReservedKept(walk, w, w', {head}, after, Note(walk.k(Normal), walk.site.scopes, Plain));
    EdgeGrown(w.graph, w'.graph, {head}, walk.cur, [], b);
  }

  lemma FilledKept(walk: Walk, w: World, w': World, s: Stmt, head: BlockId, b: BlockId, after: BlockId, e: Env)
    requires s.Repeat? && RepeatFilled(walk, w, s, head, b, after, e) && GraphOk(w) && GraphOk(w')
    requires Extends(w, w', {})
    ensures RepeatFilled(walk, w', s, head, b, after, e)
  {
    hide TurnFuture, RepeatCondition, Mark, EdgeOk, Refs, TextOf;
    ContentKept(w, w', {}, walk.cur);
    ContentKept(w, w', {}, head);
    ReservedKept(walk, w, w', {}, after, Note(walk.k(Normal), walk.site.scopes, Plain));
    EdgeGrown(w.graph, w'.graph, {}, walk.cur, [], b);
  }

  lemma RepeatEnds(
    walk: Walk, w: World, s: Stmt, e: Env, head: BlockId, b: BlockId, after: BlockId, bflow: Flow, kept: seq<Transfer>)
    requires s.Repeat? && Holding(walk, w, kept) && RepeatClosed(walk, w, s, head, b, after, e)
    requires SimulatesSeq(w.graph, s.body, e.(inLoop := true), b, [], bflow)
    requires Predicted(bflow, CompletesSeq(s.body), OutsSeq(s.body, e.(inLoop := true)))
    requires Turns(w.graph, bflow, [], head, after, kept) && KeptOutcomes(bflow.transfers, kept)
    ensures Finished(walk, w, LoopFlow(head, after, kept))
    ensures Simulates(w.graph, s, e, walk.cur, walk.start.graph.Content(walk.cur), LoopFlow(head, after, kept))
    ensures Predicted(LoopFlow(head, after, kept), Completes(s), Outs(s, e))
  {
    hide Mark, Holding, SimulatesSeq, Simulates, Predicted, Turns, KeptOutcomes, Finished, RepeatCondition, Feeds, Refs;
    hide RepeatEdges;
    var flow := LoopFlow(head, after, kept);
    RepeatHeadFeeds(s, e, walk.k);
    HeaderTransferOk(walk, w, head, [s.keyword, s.condition]);
    LoopFinished(walk, w, head, after, kept);
    LoopPredicted(s, e, head, after, bflow, kept);
    TurnsMore(w.graph, bflow, [], head, after, kept, ExceptionTransfer(head, Unknown, None));
    RepeatSimulates(w.graph, s, e, walk.cur, walk.start.graph.Content(walk.cur), head, b, after, bflow, flow);
  }
}
