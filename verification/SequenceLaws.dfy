/** Walking a statement sequence: the loop invariant and its steps. */
module SequenceLaws {
  import opened ExceptionTypes
  import opened PascalSyntax
  import opened StructuredRuns
  import opened Continuations
  import opened ControlFlowGraph
  import opened PendingTransfers
  import opened ScopePlacement
  import opened BuilderWorld
  import opened BuilderLaws

  // ---- Keeping the needs of a walk while the world grows

  lemma ActiveKept(p: Program, w: World, w': World, site: Site, active: Option<nat>, keys: set<CacheKey>)
    requires ActiveOk(p, w, site, active, keys) && Keeps(w.returnIds, w'.returnIds)
    ensures ActiveOk(p, w', site, active, keys)
  {
    if active.Some? {
      var key :| key in keys && ReturnsAs(w, key, active.value) && SitePrefix(key.site, site) && AtPlacement(p, key);
      var r :| r in w.returnIds && w.returnIds[r] == active.value && KeyMatches(key, r);
      assert r in w'.returnIds && w'.returnIds[r] == active.value;
      assert ReturnsAs(w', key, active.value);
    }
  }

  lemma FreshKept(
    w: World, w': World, site: Site, active: Option<nat>, all: set<ScopeId>, used: set<ScopeId>,
    next: set<ScopeId>)
    requires FreshFor(w, site, active, all) && NewKeys(w, w', used)
    requires next <= all && used !! next
    ensures FreshFor(w', site, active, next)
  {}

  /** A transfer never completes normally, so the normal continuation does not matter to it. */
  lemma TransfersCong(w: World, site: Site, ts: seq<Transfer>, k: Kont, k': Kont)
    requires TransfersOk(w, site, ts, k)
    requires forall o: Outcome :: !o.Normal? ==> k(o) == k'(o)
    ensures TransfersOk(w, site, ts, k')
  {
    forall t | t in ts ensures TransferOk(w, site, t, k') {
      assert TransferOk(w, site, t, k);
    }
  }

  /**
    The inner walk finished; the outer walk goes on with its own pending transfers and,
    where the inner continuation agrees, those of the inner walk.
    */
  lemma HoldingWalk(walk: Walk, w: World, ts: seq<Transfer>, inner: Walk, w': World, us: seq<Transfer>)
    requires Holding(walk, w, ts) && Holding(inner, w', us)
    requires inner.start == w && inner.program == walk.program && inner.keys == walk.keys
    requires walk.Owns(w, inner.cur) && inner.scopes <= walk.scopes
    ensures Holding(walk, w', ts)
    ensures inner.site == walk.site && (forall o: Outcome :: !o.Normal? ==> inner.k(o) == walk.k(o))
            ==> Holding(walk, w', ts + us)
  {
    ExtendsTrans(walk.start, w, w', walk.Touched(), inner.Touched(), walk.Touched());
    TransfersKept(w, w', inner.Touched(), walk.site, ts, walk.k);
    if inner.site == walk.site && (forall o: Outcome :: !o.Normal? ==> inner.k(o) == walk.k(o)) {
      TransfersCong(w', walk.site, us, inner.k, walk.k);
    }
  }

  // ---- Sequences

  ghost predicate SeqInv(
    walk: Walk, w: World, ss: seq<Stmt>, e: Env, i: nat, current: Option<BlockId>, ts: seq<Transfer>)
    requires i <= |ss|
  {
    && Holding(walk, w, ts)
    && NewKeys(walk.start, w, ScopesInSeq(ss[..i]))
    && (current.Some? ==>
          && EndOk(w, walk.site, current.value, AfterSeq(ss[i..], e, walk.k))
          && w.Usable(current.value)
          && (current.value == walk.cur || current.value >= |walk.start.notes|))
    && SimulatesSeq(w.graph, ss[..i], e, walk.cur, walk.start.graph.Content(walk.cur), Flow(current, ts))
    && Predicted(Flow(current, ts), CompletesSeq(ss[..i]), OutsSeq(ss[..i], e))
  }

  lemma SeqStart(walk: Walk, active: Option<nat>, ss: seq<Stmt>, e: Env)
    requires CanWalk(walk, active, AfterSeq(ss, e, walk.k))
    ensures SeqInv(walk, walk.start, ss, e, 0, Some(walk.cur), [])
  {
    Begins(walk, active, AfterSeq(ss, e, walk.k));
    hide WorldOk, Extends, AfterSeq;
    assert ss[0..] == ss && ss[..0] == [];
    ReachesHere(walk.start.graph, walk.cur);
    var before := walk.start.graph.Content(walk.cur);
    assert before + [] == before;
  }

  /** The walk of statement `i`, with what remains of the sequence as its normal continuation. */
  ghost function StatementWalk(walk: Walk, w: World, ss: seq<Stmt>, e: Env, i: nat, c: BlockId): Walk
    requires i < |ss|
  {
    walk.(start := w, cur := c, scopes := ScopesIn(ss[i]), k := WithNormal(walk.k, AfterSeq(ss[i + 1..], e, walk.k)))
  }

  lemma {:induction false} SeqNext(
    walk: Walk, w: World, ss: seq<Stmt>, e: Env, i: nat, c: BlockId, ts: seq<Transfer>, active: Option<nat>)
    requires i < |ss| && DistinctSeq(ss) && PlacedSeq(ss, walk.site.Depths(), walk.program.placements)
    requires CanWalk(walk, active, AfterSeq(ss, e, walk.k)) && walk.scopes == ScopesInSeq(ss)
    requires Holding(walk, w, ts) && NewKeys(walk.start, w, ScopesInSeq(ss[..i]))
    requires EndOk(w, walk.site, c, AfterSeq(ss[i..], e, walk.k)) && w.Usable(c)
    ensures CanWalk(StatementWalk(walk, w, ss, e, i, c), active, After(ss[i], e, StatementWalk(walk, w, ss, e, i, c).k))
    ensures Distinct(ss[i]) && Placed(ss[i], walk.site.Depths(), walk.program.placements)
  {
    hide WorldOk, IsRun, IsRunSeq, Grown, DistinctSeq, PlacedSeq, TransfersOk, TextOf, Feeds;
    SeqElement(ss, walk.site.Depths(), walk.program.placements, i);
    hide ScopesIn, ScopesInSeq, Distinct, Placed, After, AfterSeq;
    var inner := StatementWalk(walk, w, ss, e, i, c);
    FollowsKept(walk.program, walk.start, w, walk.site, walk.k);
    assert ss[i..] == [ss[i]] + ss[i + 1..];
    SequenceFeeds(ss[i], ss[i + 1..], e, walk.k);
    FeedsWeaken(w.graph.Content(c), After(ss[i], e, inner.k), AfterSeq(ss[i..], e, walk.k), w.notes[c].future);
    ActiveKept(walk.program, walk.start, w, walk.site, active, walk.keys);
    FreshKept(walk.start, w, walk.site, active, walk.scopes, ScopesInSeq(ss[..i]), ScopesIn(ss[i]));
  }

  /** After an abrupt statement the walk goes on in a block that nothing leads to. */
  lemma SeqUnreachable(walk: Walk, w: World, ss: seq<Stmt>, e: Env, i: nat, ts: seq<Transfer>)
    requires i < |ss| && SeqInv(walk, w, ss, e, i, None, ts)
    ensures var note := Note(AfterSeq(ss[i..], e, walk.k), walk.site.scopes, Plain);
            var w' := w.WithBlock(Plain, note);
            && NewKeys(walk.start, w', ScopesInSeq(ss[..i]))
            && EndOk(w', walk.site, |w.notes|, AfterSeq(ss[i..], e, walk.k))
            && w'.Usable(|w.notes|)
            && |w.notes| >= |walk.start.notes|
            && SimulatesSeq(w'.graph, ss[..i], e, walk.cur, walk.start.graph.Content(walk.cur), Flow(None, ts))
  {
    hide AfterSeq, CompletesSeq, OutsSeq, IsRunSeq, ScopesInSeq;
    var future := AfterSeq(ss[i..], e, walk.k);
    var note := Note(future, walk.site.scopes, Plain);
    BlockStep(walk, w, ts, Plain, note);
    FeedsSelf(future, future);
    var w' := w.WithBlock(Plain, note);
    assert w'.notes[|w.notes|] == note && w'.graph.Content(|w.notes|) == [];
    assert forall t :: t in ts ==> TransferOk(w, walk.site, t, walk.k);
    SimulatesSeqKept(w, w', {}, ss[..i], e, walk.cur, walk.start.graph.Content(walk.cur), Flow(None, ts));
  }

  lemma SeqSimulates(
    g: Graph, g': Graph, touched: set<BlockId>, front: seq<Stmt>, s: Stmt, e: Env,
    start: BlockId, before: Trace, current: Option<BlockId>, c: BlockId, ts: seq<Transfer>, flow: Flow)
    requires Grown(g, g', touched) && AllOpen(g, touched)
    requires forall t :: t in ts ==> t.source !in touched
    requires current == None || current == Some(c)
    requires SimulatesSeq(g, front, e, start, before, Flow(current, ts))
    requires Simulates(g', s, e, c, g.Content(c), flow)
    ensures SimulatesSeq(g', front + [s], e, start, before, Flow(flow.normal, ts + flow.transfers))
  {
    hide Grown, AllOpen, Reaches, IsRun;
    var all := front + [s];
    assert all[..|all| - 1] == front;
    var whole := Flow(flow.normal, ts + flow.transfers);
    forall r | IsRunSeq(all, e, r) ensures Lands(g', start, before + Events(r), r.out, whole) {
      assert Lands(g, start, before + Events(r.first), r.first.out, Flow(current, ts));
      hide IsRunSeq;
      if r.first.out.Normal? {
        assert Lands(g', c, g.Content(c) + Events(r.second), r.second.out, flow);
        LandsAfter(g, g', touched, start, before + Events(r.first), c, Events(r.second), r.second.out, flow);
        assert before + Events(r.first) + Events(r.second) == before + Events(r);
        LandsMore(g', start, before + Events(r), r.out, flow, whole);
      } else {
        var t :| t in ts && TransferOutcome(t) == r.first.out && Reaches(g, start, before + Events(r.first), t.source);
        ReachesGrown(g, g', touched, start, before + Events(r.first), t.source);
        assert Events(r) == Events(r.first);
        assert t in whole.transfers;
      }
    }
  }

  /** Reach a point, then land where the rest lands from that point. */
  lemma LandsAfter(
    g: Graph, g': Graph, touched: set<BlockId>, start: BlockId, trace: Trace, c: BlockId, more: Trace,
    out: Outcome, flow: Flow)
    requires Grown(g, g', touched) && AllOpen(g, touched)
    requires Reaches(g, start, trace, c)
    requires Lands(g', c, g.Content(c) + more, out, flow)
    ensures Lands(g', start, trace + more, out, flow)
  {
    hide Grown, AllOpen, Reaches;
    if out.Normal? {
      ReachesThrough(g, g', touched, start, trace, c, more, flow.normal.value);
    } else {
      var t :| t in flow.transfers && TransferOutcome(t) == out && Reaches(g', c, g.Content(c) + more, t.source);
      ReachesThrough(g, g', touched, start, trace, c, more, t.source);
    }
  }

  lemma LandsMore(g: Graph, start: BlockId, trace: Trace, out: Outcome, flow: Flow, more: Flow)
    requires Lands(g, start, trace, out, flow)
    requires out.Normal? ==> more.normal == flow.normal
    requires forall t :: t in flow.transfers ==> t in more.transfers
    ensures Lands(g, start, trace, out, more)
  {}

  lemma SeqPredicted(front: seq<Stmt>, s: Stmt, e: Env, normal: Option<BlockId>, ts: seq<Transfer>, flow: Flow)
    requires Predicted(Flow(normal, ts), CompletesSeq(front), OutsSeq(front, e))
    requires Predicted(flow, Completes(s), Outs(s, e))
    ensures Predicted(Flow(flow.normal, ts + flow.transfers), CompletesSeq(front + [s]), OutsSeq(front + [s], e))
  {
    var all := front + [s];
    assert all[..|all| - 1] == front;
    OutcomesAppend(ts, flow.transfers);
  }

  lemma SeqStep(
    walk: Walk, w: World, w': World, ss: seq<Stmt>, e: Env, i: nat,
    current: Option<BlockId>, c: BlockId, ts: seq<Transfer>, flow: Flow)
    requires i < |ss| && DistinctSeq(ss) && PlacedSeq(ss, walk.site.Depths(), walk.program.placements)
    requires walk.scopes == ScopesInSeq(ss)
    requires Holding(walk, w, ts) && NewKeys(walk.start, w, ScopesInSeq(ss[..i]))
    requires current == None || current == Some(c)
    requires c == walk.cur || c >= |walk.start.notes|
    requires SimulatesSeq(w.graph, ss[..i], e, walk.cur, walk.start.graph.Content(walk.cur), Flow(current, ts))
    requires Predicted(Flow(current, ts), CompletesSeq(ss[..i]), OutsSeq(ss[..i], e))
    requires Finished(StatementWalk(walk, w, ss, e, i, c), w', flow)
    requires Simulates(w'.graph, ss[i], e, c, w.graph.Content(c), flow)
    requires Predicted(flow, Completes(ss[i]), Outs(ss[i], e))
    ensures SeqInv(walk, w', ss, e, i + 1, flow.normal, ts + flow.transfers)
  {
    hide WorldOk, IsRun, IsRunSeq, Grown, Simulates, SimulatesSeq, Predicted, TransferOk, After, AfterSeq;
    var inner := StatementWalk(walk, w, ss, e, i, c);
    SeqElement(ss, walk.site.Depths(), walk.program.placements, i);
    hide DistinctSeq, PlacedSeq, Distinct, Placed, ScopesIn, ScopesInSeq, Completes, CompletesSeq, Outs, OutsSeq;
    HoldingWalk(walk, w, ts, inner, w', flow.transfers);
    assert ss[..i + 1] == ss[..i] + [ss[i]];
    SeqStepSimulates(w, w', inner.Touched(), ss[..i], ss[i], e, walk, current, c, ts, flow);
    SeqPredicted(ss[..i], ss[i], e, current, ts, flow);
  }

  lemma SeqStepSimulates(
    w: World, w': World, touched: set<BlockId>, front: seq<Stmt>, s: Stmt, e: Env,
    walk: Walk, current: Option<BlockId>, c: BlockId, ts: seq<Transfer>, flow: Flow)
    requires GraphOk(w) && Extends(w, w', touched) && TransfersOk(w, walk.site, ts, walk.k)
    requires current == None || current == Some(c)
    requires SimulatesSeq(w.graph, front, e, walk.cur, walk.start.graph.Content(walk.cur), Flow(current, ts))
    requires Simulates(w'.graph, s, e, c, w.graph.Content(c), flow)
    ensures SimulatesSeq(w'.graph, front + [s], e, walk.cur, walk.start.graph.Content(walk.cur),
                         Flow(flow.normal, ts + flow.transfers))
  {
    hide Simulates, SimulatesSeq;
    OpenTouched(w, touched);
    assert forall t :: t in ts ==> TransferOk(w, walk.site, t, walk.k);
    SeqSimulates(w.graph, w'.graph, touched, front, s, e, walk.cur, walk.start.graph.Content(walk.cur), current, c,
                 ts, flow);
  }

  lemma SeqDone(walk: Walk, w: World, ss: seq<Stmt>, e: Env, current: Option<BlockId>, ts: seq<Transfer>)
    requires SeqInv(walk, w, ss, e, |ss|, current, ts)
    ensures Finished(walk, w, Flow(current, ts))
    ensures SimulatesSeq(w.graph, ss, e, walk.cur, walk.start.graph.Content(walk.cur), Flow(current, ts))
    ensures Predicted(Flow(current, ts), CompletesSeq(ss), OutsSeq(ss, e))
  {
    hide Holding, SimulatesSeq, Predicted;
    assert ss[..|ss|] == ss && ss[|ss|..] == [];
    AfterSeqEmpty(e, walk.k);
  }

  // ---- begin..end

  lemma BlockIsSequence(s: Stmt, e: Env, k: Kont)
    requires s.Block?
    ensures AfterSeq(s.body, e, k) == After(s, e, k)
    ensures Completes(s) == CompletesSeq(s.body) && Outs(s, e) == OutsSeq(s.body, e)
  {
    forall t ensures t in AfterSeq(s.body, e, k) <==> t in After(s, e, k) {
      if t in AfterSeq(s.body, e, k) {
        var r: Run, u: Trace :| IsRunSeq(s.body, e, r) && u in k(r.out) && t == Events(r) + u;
        BlockRun(s, e, r);
      }
      if t in After(s, e, k) {
        var r: Run, u: Trace :| IsRun(s, e, r) && u in k(r.out) && t == Events(r) + u;
      }
    }
  }

  lemma BlockRun(s: Stmt, e: Env, r: Run)
    requires s.Block?
    ensures IsRun(s, e, r) <==> IsRunSeq(s.body, e, r)
  {}

  lemma BlockSimulates(g: Graph, s: Stmt, e: Env, start: BlockId, before: Trace, flow: Flow)
    requires s.Block? && SimulatesSeq(g, s.body, e, start, before, flow)
    ensures Simulates(g, s, e, start, before, flow)
  {
    hide Lands, IsRunSeq;
    forall r | IsRun(s, e, r) ensures Lands(g, start, before + Events(r), r.out, flow) {
      BlockRun(s, e, r);
    }
  }
}
