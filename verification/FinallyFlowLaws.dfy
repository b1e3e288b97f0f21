/** `try..finally`: what leaves the finalizers, group by group. */
module FinallyFlowLaws {
  import opened ExceptionTypes
  import opened PascalSyntax
  import opened StructuredRuns
  import opened Continuations
  import opened ControlFlowGraph
  import opened PendingTransfers
  import opened ScopePlacement
  import opened BuilderWorld
  import opened BuilderLaws
  import opened SequenceLaws
  import opened BranchLaws
  import opened FinalizerGroups
  import opened TryFinallyLaws

  // ---- What a finalizer hands on

  /** The finalizer's own transfers supersede the incoming one and are marked as its. */
  function Marked(ts: seq<Transfer>): seq<Transfer> {
    seq(|ts|, i requires 0 <= i < |ts| => WithSource(ts[i], ts[i].source))
  }

  lemma MarkedTransfers(ts: seq<Transfer>)
    ensures forall t :: t in ts ==> WithSource(t, t.source) in Marked(ts)
    ensures forall u :: u in Marked(ts) ==> exists t :: t in ts && u == WithSource(t, t.source)
    ensures Outcomes(Marked(ts)) == Outcomes(ts)
  {
    forall t | t in ts ensures WithSource(t, t.source) in Marked(ts) {
      var i :| 0 <= i < |ts| && ts[i] == t;
      assert Marked(ts)[i] == WithSource(t, t.source);
    }
    forall u | u in Marked(ts) ensures exists t :: t in ts && u == WithSource(t, t.source) {
      var i :| 0 <= i < |ts| && Marked(ts)[i] == u;
      assert ts[i] in ts;
    }
    forall o | o in Outcomes(ts) ensures o in Outcomes(Marked(ts)) {
      var t :| t in ts && TransferOutcome(t) == o;
      assert TransferOutcome(WithSource(t, t.source)) == o;
    }
  }

  /** After normal completion of the finalizer the suspended completion goes on. */
  function Resumption(group: Group, inner: Flow): seq<Transfer> {
    if group.key.Some? && inner.normal.Some? && group.inputs != [] && group.inputs[0].FromTransfer?
    then [WithSource(group.inputs[0].transfer, inner.normal.value)] else []
  }

  function GroupOutput(out: Flow, group: Group, inner: Flow, after: Option<BlockId>): Flow {
    Flow(if group.key.None? && inner.normal.Some? then after else out.normal,
         out.transfers + Resumption(group, inner) + Marked(inner.transfers))
  }

  /** Every completion of the finalizer has its continuation in `out`. */
  ghost predicate Returned(g: Graph, key: Option<ContinuationKey>, inner: Flow, out: Flow) {
    && (inner.normal.Some? ==>
          if key.None? then out.normal.Some? && g.Links(inner.normal.value, [], out.normal.value)
          else exists t ::
            t in out.transfers && TransferOutcome(t) == OutcomeOf(key.value) && t.source == inner.normal.value)
    && (forall t :: t in inner.transfers ==> WithSource(t, t.source) in out.transfers)
  }

  /** How the completions of a group enter their finalizer. */
  function EntryMark(key: Option<ContinuationKey>): Trace {
    Mark(EntryKind(Suspends(key)))
  }

  /** The inputs of the group enter the finalizer of `f` that was made for them. */
  ghost predicate GroupReturned(
    g: Graph, f: ScopeId, cleanup: seq<Stmt>, e: Env, group: Group, c: CachedBody, out: Flow)
  {
    && (forall x :: x in group.inputs ==> g.Links(InputSource(x), EntryMark(group.key), c.entry))
    && SimulatesSeq(g, cleanup, e, c.entry, [Cleanup(f, Suspends(group.key))], c.flow)
    && Returned(g, group.key, c.flow, out)
  }

  ghost predicate AllReturned(
    g: Graph, f: ScopeId, cleanup: seq<Stmt>, e: Env, groups: seq<Group>, bodies: seq<CachedBody>, out: Flow)
  {
    |groups| == |bodies| && forall i :: 0 <= i < |groups| ==> GroupReturned(g, f, cleanup, e, groups[i], bodies[i], out)
  }

  lemma ReturnedGrown(
    g: Graph, g': Graph, f: ScopeId, cleanup: seq<Stmt>, e: Env, group: Group, c: CachedBody, out: Flow,
    out': Flow)
    requires Grown(g, g', {}) && GroupReturned(g, f, cleanup, e, group, c, out)
    requires forall t :: t in out.transfers ==> t in out'.transfers
    requires group.key.None? && out.normal.Some? ==> out'.normal == out.normal
    ensures GroupReturned(g', f, cleanup, e, group, c, out')
  {
    hide SimulatesSeq;
    SimulatesSeqGrown(g, g', cleanup, e, c.entry, [Cleanup(f, Suspends(group.key))], c.flow);
    forall x | x in group.inputs ensures g'.Links(InputSource(x), EntryMark(group.key), c.entry) {
      EdgeGrown(g, g', {}, InputSource(x), EntryMark(group.key), c.entry);
    }
    if c.flow.normal.Some? && group.key.None? {
      EdgeGrown(g, g', {}, c.flow.normal.value, [], out.normal.value);
    }
  }

  lemma AllReturnedGrown(
    g: Graph, g': Graph, f: ScopeId, cleanup: seq<Stmt>, e: Env, groups: seq<Group>, bodies: seq<CachedBody>,
    out: Flow, out': Flow)
    requires Grown(g, g', {}) && AllReturned(g, f, cleanup, e, groups, bodies, out)
    requires forall t :: t in out.transfers ==> t in out'.transfers
    requires forall i :: 0 <= i < |groups| && groups[i].key.None? && out.normal.Some? ==> out'.normal == out.normal
    ensures AllReturned(g', f, cleanup, e, groups, bodies, out')
  {
    hide GroupReturned, Grown;
    forall i | 0 <= i < |groups| ensures GroupReturned(g', f, cleanup, e, groups[i], bodies[i], out') {
      ReturnedGrown(g, g', f, cleanup, e, groups[i], bodies[i], out, out');
    }
  }

  lemma NewReturned(
    g: Graph, f: ScopeId, cleanup: seq<Stmt>, e: Env, group: Group, c: CachedBody, out: Flow, after: Option<BlockId>)
    requires SimulatesSeq(g, cleanup, e, c.entry, [Cleanup(f, Suspends(group.key))], c.flow)
             && forall x :: x in group.inputs ==> g.Links(InputSource(x), EntryMark(group.key), c.entry)
    requires group.inputs != [] && forall x :: x in group.inputs ==> InputKey(x) == group.key
    requires group.key.None? && c.flow.normal.Some? ==> after.Some? && g.Links(c.flow.normal.value, [], after.value)
    ensures GroupReturned(g, f, cleanup, e, group, c, GroupOutput(out, group, c.flow, after))
  {
    hide SimulatesSeq;
    MarkedTransfers(c.flow.transfers);
    var next := GroupOutput(out, group, c.flow, after);
    if group.key.Some? && c.flow.normal.Some? {
      var x := group.inputs[0];
      assert x in group.inputs && x.FromTransfer?;
      var t := WithSource(x.transfer, c.flow.normal.value);
      assert t in Resumption(group, c.flow);
      assert t in next.transfers && TransferOutcome(t) == OutcomeOf(group.key.value);
    }
  }

  // ---- Predicted completions

  ghost function KeyOutcomes(groups: seq<Group>): set<Outcome> {
    set g | g in groups && g.key.Some? :: OutcomeOf(g.key.value)
  }

  /** The completions that pass the finalizers of these groups. */
  ghost function PassedOuts(cleanup: seq<Stmt>, e: Env, groups: seq<Group>): set<Outcome> {
    (if CompletesSeq(cleanup) then KeyOutcomes(groups) else {})
    + (if groups != [] then OutsSeq(cleanup, e) else {})
  }

  ghost predicate HasNormal(groups: seq<Group>) {
    exists i :: 0 <= i < |groups| && groups[i].key.None?
  }

  ghost predicate Resumed(cleanup: seq<Stmt>, e: Env, groups: seq<Group>, out: Flow) {
    && (out.normal.Some? <==> CompletesSeq(cleanup) && HasNormal(groups))
    && Outcomes(out.transfers) == PassedOuts(cleanup, e, groups)
  }

  lemma ResumedNext(
    cleanup: seq<Stmt>, e: Env, groups: seq<Group>, out: Flow, group: Group, inner: Flow, after: Option<BlockId>)
    requires Resumed(cleanup, e, groups, out) && Predicted(inner, CompletesSeq(cleanup), OutsSeq(cleanup, e))
    requires group.inputs != [] && forall x :: x in group.inputs ==> InputKey(x) == group.key
    requires group.key.None? && inner.normal.Some? ==> after.Some?
    ensures Resumed(cleanup, e, groups + [group], GroupOutput(out, group, inner, after))
  {
    hide CompletesSeq, OutsSeq, Outcomes, Marked, Resumption, HasNormal, KeyOutcomes;
    NormalNext(groups, group);
    MarkedTransfers(inner.transfers);
    OutcomesAppend(out.transfers, Resumption(group, inner));
    OutcomesAppend(out.transfers + Resumption(group, inner), Marked(inner.transfers));
    ResumptionOutcomes(group, inner);
    KeysNext(groups, group);
  }

  lemma NormalNext(groups: seq<Group>, group: Group)
    ensures HasNormal(groups + [group]) <==> HasNormal(groups) || group.key.None?
  {
    var all := groups + [group];
    if HasNormal(groups) {
      var i :| 0 <= i < |groups| && groups[i].key.None?;
      assert all[i].key.None?;
    }
    assert all[|groups|] == group;
  }

  lemma KeysNext(groups: seq<Group>, group: Group)
    ensures KeyOutcomes(groups + [group]) == KeyOutcomes(groups) + if group.key.Some?
            then {OutcomeOf(group.key.value)} else {}
  {
    var all := groups + [group];
    forall o | o in KeyOutcomes(groups) ensures o in KeyOutcomes(all) {
      var g :| g in groups && g.key.Some? && OutcomeOf(g.key.value) == o;
      assert g in all;
    }
    assert group in all;
  }

  lemma ResumptionOutcomes(group: Group, inner: Flow)
    requires group.inputs != [] && forall x :: x in group.inputs ==> InputKey(x) == group.key
    ensures Outcomes(Resumption(group, inner))
            == if group.key.Some? && inner.normal.Some? then {OutcomeOf(group.key.value)} else {}
  {
    assert group.inputs[0] in group.inputs;
    if group.key.Some? && inner.normal.Some? {
      var t := WithSource(group.inputs[0].transfer, inner.normal.value);
      assert Resumption(group, inner) == [t] && TransferOutcome(t) == OutcomeOf(group.key.value) && t in [t];
    }
  }

  // ---- Recorded bodies

  /** Bodies recorded since `cache`: inside these scopes, or for the scope itself and a group already done. */
  ghost predicate RecordedSince(
    cache: map<CacheKey, CachedBody>, cache': map<CacheKey, CachedBody>, f: ScopeId, scopes: set<ScopeId>,
    groups: seq<Group>)
  {
    forall key :: key in cache' && key !in cache ==>
        key.scope in scopes || (key.scope == f && HasKey(groups, key.continuation))
  }

  ghost predicate HasKey(groups: seq<Group>, key: Option<ContinuationKey>) {
    exists i :: 0 <= i < |groups| && groups[i].key == key
  }

  lemma RecordedNext(
    cache: map<CacheKey, CachedBody>, cache1: map<CacheKey, CachedBody>, cache2: map<CacheKey, CachedBody>,
    f: ScopeId, scopes: set<ScopeId>, inner: set<ScopeId>, groups: seq<Group>, group: Group, key: CacheKey)
    requires RecordedSince(cache, cache1, f, scopes, groups) && NewBodies(cache1, cache2, key, inner) && inner <= scopes
    requires key.scope == f && key.continuation == group.key
    ensures RecordedSince(cache, cache2, f, scopes, groups + [group])
  {
    var all := groups + [group];
    assert all[|groups|] == group;
    forall x | x in cache2 && x !in cache && x.scope !in scopes ensures x.scope == f && HasKey(all, x.continuation) {
      if x in cache1 {
        var i :| 0 <= i < |groups| && groups[i].key == x.continuation;
        assert all[i].key == x.continuation;
      }
    }
  }

  /** The next group never finds a body when it completes normally. */
  lemma NextMisses(
    walk: Walk, active: Option<nat>, f: ScopeId, cache: map<CacheKey, CachedBody>, scopes: set<ScopeId>,
    groups: seq<Group>, i: nat)
    requires FreshFor(walk.start, walk.site, active, walk.scopes) && f in walk.scopes && f !in scopes
    requires i < |groups| && RecordedSince(walk.start.cache, cache, f, scopes, groups[..i]) && groups[i].key.None?
    requires forall a, b :: 0 <= a < b < |groups| ==> groups[a].key != groups[b].key
    ensures BodyKey(f, None, active, walk.site) !in cache
  {
    NormalMisses(walk, active, f);
  }

  // ---- The groups of one statement

  /** A `try..finally` whose body has been walked and whose inputs are grouped. */
  datatype Finalizing = Finalizing(walk: Walk, stmt: Stmt, env: Env, body: Flow, groups: seq<Group>) {
    ghost function BodyEnd(): set<BlockId> {
      if body.normal.Some? then {body.normal.value} else {}
    }

    ghost function InnerScopes(): set<ScopeId>
      requires stmt.TryFinally?
    {
      ScopesInSeq(stmt.body) + ScopesInSeq(stmt.cleanup)
    }

    ghost predicate EndHeld(w: World, out: Flow) {
      out.normal.Some? ==>
        Reserved(walk, w, out.normal.value, Note(walk.k(Normal), walk.site.scopes, Plain)) && out.normal != body.normal
    }

    /** The first groups are done, through these finalizer bodies. */
    ghost predicate Ok(w: World, bodies: seq<CachedBody>, out: Flow) {
      && stmt.TryFinally?
      && Holding(walk, w, out.transfers)
      && Protected(walk, w, stmt, env, body)
      && Grouped(Inputs(body), stmt.scope, groups)
      && |bodies| <= |groups|
      && AllReturned(w.graph, stmt.scope, stmt.cleanup, env, groups[..|bodies|], bodies, out)
      && EndHeld(w, out)
      && Resumed(stmt.cleanup, env, groups[..|bodies|], out)
      && RecordedSince(walk.start.cache, w.cache, stmt.scope, InnerScopes(), groups[..|bodies|])
    }
  }

  lemma FinalizingStart(fz: Finalizing, w: World)
    requires fz.stmt.TryFinally? && Holding(fz.walk, w, []) && Protected(fz.walk, w, fz.stmt, fz.env, fz.body)
    requires Grouped(Inputs(fz.body), fz.stmt.scope, fz.groups) && NewKeys(fz.walk.start, w, ScopesInSeq(fz.stmt.body))
    ensures fz.Ok(w, [], Flow(None, []))
  {
    hide Holding, Protected, Grouped, ScopesInSeq, CompletesSeq, OutsSeq;
    assert fz.groups[..0] == [];
  }

  lemma FinalizingGroup(fz: Finalizing, w: World, bodies: seq<CachedBody>, out: Flow)
    requires fz.Ok(w, bodies, out) && |bodies| < |fz.groups|
    ensures var group := fz.groups[|bodies|];
            && group.inputs != []
            && (forall x :: x in group.inputs ==> x in Inputs(fz.body) && InputKey(x) == group.key)
            && fz.groups[..|bodies| + 1] == fz.groups[..|bodies|] + [group]
            && (group.key.None? ==> out.normal.None? && forall i :: 0 <= i < |bodies| ==> fz.groups[i].key.Some?)
  {
    hide Holding, Protected, AllReturned, RecordedSince, CompletesSeq;
    var group := fz.groups[|bodies|];
    if group.key.None? {
      forall i | 0 <= i < |bodies| ensures fz.groups[i].key.Some? {
        assert fz.groups[i].key != group.key;
      }
    }
  }

  lemma EndKept(fz: Finalizing, w: World, w': World, touched: set<BlockId>, out: Flow)
    requires GraphOk(w) && GraphOk(w') && Extends(w, w', touched) && touched <= fz.BodyEnd() && fz.EndHeld(w, out)
    ensures fz.EndHeld(w', out)
  {
    hide Extends, GraphOk, Reserved;
    if out.normal.Some? {
      ReservedKept(fz.walk, w, w', touched, out.normal.value, Note(fz.walk.k(Normal), fz.walk.site.scopes, Plain));
    }
  }

  /** What one finalizer hands on can wait outside the statement. */
  lemma GroupTransfers(fz: Finalizing, w: World, bodies: seq<CachedBody>, out: Flow, c: CachedBody)
    requires fz.stmt.TryFinally? && Protected(fz.walk, w, fz.stmt, fz.env, fz.body) && |bodies| < |fz.groups|
    requires var group := fz.groups[|bodies|];
             && group.inputs != []
             && (forall x :: x in group.inputs ==> x in Inputs(fz.body) && InputKey(x) == group.key)
             && Finalizes(fz.walk, w, fz.stmt.scope, fz.stmt.cleanup, fz.env, Suspends(group.key), c)
    ensures TransfersOk(w, fz.walk.site, Resumption(fz.groups[|bodies|], c.flow), fz.walk.k)
    ensures TransfersOk(w, fz.walk.site, Marked(c.flow.transfers), fz.walk.k)
  {
    hide SimulatesSeq, Predicted, Finalized, Feeds, ThroughFinally, KeyFor;
    var group := fz.groups[|bodies|];
    MarkedTransfers(c.flow.transfers);
    forall u | u in Marked(c.flow.transfers) ensures TransferOk(w, fz.walk.site, u, fz.walk.k) {
      var t :| t in c.flow.transfers && u == WithSource(t, t.source);
      assert TransferOk(w, fz.walk.site, t, fz.walk.k);
    }
    hide Marked;
    forall u | u in Resumption(group, c.flow) ensures TransferOk(w, fz.walk.site, u, fz.walk.k) {
      var x := group.inputs[0];
      assert x in group.inputs;
      InputsOf(fz.body, x);
      assert TransferOk(w, TrySite(fz.walk.site, fz.stmt.scope), x.transfer,
                        ThroughFinally(fz.stmt.scope, fz.stmt.cleanup, fz.env, fz.walk.k));
    }
  }

  /** One more group is done. */
  lemma GroupDone(
    fz: Finalizing, w: World, w': World, touched: set<BlockId>, bodies: seq<CachedBody>, out: Flow,
    c: CachedBody, after: Option<BlockId>, key: CacheKey)
    requires fz.Ok(w, bodies, out) && |bodies| < |fz.groups| && Extends(w, w', touched) && Grown(w.graph, w'.graph, {})
    requires touched <= fz.BodyEnd() && Holding(fz.walk, w', out.transfers)
    requires Finalizes(fz.walk, w', fz.stmt.scope, fz.stmt.cleanup, fz.env, Suspends(fz.groups[|bodies|].key), c)
    requires forall x :: x in fz.groups[|bodies|].inputs ==>
               w'.graph.Links(InputSource(x), EntryMark(fz.groups[|bodies|].key), c.entry)
    requires fz.groups[|bodies|].key.None? && c.flow.normal.Some? ==>
               && after.Some? && w'.graph.Links(c.flow.normal.value, [], after.value) && after != fz.body.normal
               && Reserved(fz.walk, w', after.value, Note(fz.walk.k(Normal), fz.walk.site.scopes, Plain))
    requires NewBodies(w.cache, w'.cache, key, ScopesInSeq(fz.stmt.cleanup)) && key.scope == fz.stmt.scope
    requires key.continuation == fz.groups[|bodies|].key
    ensures fz.Ok(w', bodies + [c], GroupOutput(out, fz.groups[|bodies|], c.flow, after))
  {
    hide Grouped, AllReturned, Resumed, RecordedSince, Protected, WorldOk, TransfersOk, GraphOk, Extends, Grown;
    hide Reserved, Finalizes;
    hide Returned, NewBodies, ScopesInSeq, Inputs, Resumption, Marked;
    var group := fz.groups[|bodies|];
    var next := GroupOutput(out, group, c.flow, after);
    FinalizingGroup(fz, w, bodies, out);
    HoldingGraph(fz.walk, w, out.transfers);
    HoldingGraph(fz.walk, w', out.transfers);
    ProtectedGrown(fz.walk, w, w', touched, fz.stmt, fz.env, fz.body);
    GroupTransfers(fz, w', bodies, out, c);
    HoldingMore(fz.walk, w', out.transfers, Resumption(group, c.flow));
    HoldingMore(fz.walk, w', out.transfers + Resumption(group, c.flow), Marked(c.flow.transfers));
    EndKept(fz, w, w', touched, out);
    RecordedNext(fz.walk.start.cache, w.cache, w'.cache, fz.stmt.scope, fz.InnerScopes(),
                 ScopesInSeq(fz.stmt.cleanup), fz.groups[..|bodies|], group, key);
    FinalizesParts(fz.walk, w', fz.stmt.scope, fz.stmt.cleanup, fz.env, Suspends(group.key), c);
    ResumedNext(fz.stmt.cleanup, fz.env, fz.groups[..|bodies|], out, group, c.flow, after);
    ReturnedNext(fz, w.graph, w'.graph, bodies, out, c, after);
  }

  lemma FinalizesParts(walk: Walk, w: World, f: ScopeId, cleanup: seq<Stmt>, e: Env, o: Outcome, c: CachedBody)
    requires Finalizes(walk, w, f, cleanup, e, o, c)
    ensures SimulatesSeq(w.graph, cleanup, e, c.entry, [Cleanup(f, o)], c.flow)
    ensures Predicted(c.flow, CompletesSeq(cleanup), OutsSeq(cleanup, e))
  {}

  lemma ReturnedNext(
    fz: Finalizing, g: Graph, g': Graph, bodies: seq<CachedBody>, out: Flow, c: CachedBody,
    after: Option<BlockId>)
    requires fz.stmt.TryFinally? && |bodies| < |fz.groups| && Grown(g, g', {})
    requires AllReturned(g, fz.stmt.scope, fz.stmt.cleanup, fz.env, fz.groups[..|bodies|], bodies, out)
    requires SimulatesSeq(
               g', fz.stmt.cleanup, fz.env, c.entry, [Cleanup(fz.stmt.scope, Suspends(fz.groups[|bodies|].key))],
                   c.flow)
    requires var group := fz.groups[|bodies|];
             && group.inputs != []
             && (forall x :: x in group.inputs ==>
                   InputKey(x) == group.key && g'.Links(InputSource(x), EntryMark(group.key), c.entry))
             && (group.key.None? ==> forall i :: 0 <= i < |bodies| ==> fz.groups[i].key.Some?)
             && (group.key.None? && c.flow.normal.Some? ==>
                   after.Some? && g'.Links(c.flow.normal.value, [], after.value))
    ensures AllReturned(g', fz.stmt.scope, fz.stmt.cleanup, fz.env, fz.groups[..|bodies| + 1], bodies + [c],
                        GroupOutput(out, fz.groups[|bodies|], c.flow, after))
  {
    hide GroupReturned, SimulatesSeq, Resumption, Marked;
    var group := fz.groups[|bodies|];
    var next := GroupOutput(out, group, c.flow, after);
    AllReturnedGrown(g, g', fz.stmt.scope, fz.stmt.cleanup, fz.env, fz.groups[..|bodies|], bodies, out, next);
    NewReturned(g', fz.stmt.scope, fz.stmt.cleanup, fz.env, group, c, out, after);
  }

  // ---- Entering the finalizers

  /** The edge from an input to the finalizer of its group is allowed. */
  lemma InputEdge(walk: Walk, w: World, s: Stmt, e: Env, body: Flow, x: Input, c: CachedBody)
    requires s.TryFinally? && Protected(walk, w, s, e, body) && x in Inputs(body)
    requires Finalizes(walk, w, s.scope, s.cleanup, e, Suspends(InputKey(x)), c)
    ensures w.Has(InputSource(x)) && w.Has(c.entry)
    ensures ScopeStep(w.notes[InputSource(x)], w.notes[c.entry])
    ensures KindFits(EntryKind(Suspends(InputKey(x))), w.notes[c.entry].kind)
    ensures Feeds(w.graph.Content(InputSource(x)) + EntryMark(InputKey(x)), w.notes[c.entry].future,
                  w.notes[InputSource(x)].future)
    ensures InputSource(x) in w.closed || (x.FromEnd? && (x.end == walk.cur || x.end >= |walk.start.notes|))
  {
    hide SimulatesSeq, Predicted, Finalized, Feeds, KeyFor, Behind, Mark;
    InputsOf(body, x);
    var scopes := walk.site.scopes;
    assert (scopes + [s.scope])[..|scopes|] == scopes;
    if x.FromTransfer? {
      assert TransferOk(w, TrySite(walk.site, s.scope), x.transfer, ThroughFinally(s.scope, s.cleanup, e, walk.k));
    }
    FeedsBehind(w.graph.Content(InputSource(x)), EntryMark(InputKey(x)), w.notes[c.entry].future,
                w.notes[InputSource(x)].future);
  }

  // ---- The protected body, once more

  lemma ProtectedDedup(walk: Walk, w: World, s: Stmt, e: Env, flow: Flow)
    requires s.TryFinally? && Protected(walk, w, s, e, flow)
    ensures Protected(walk, w, s, e, Flow(flow.normal, Dedup(flow.transfers)))
  {
    hide IsRunSeq, Reaches, TransferOk, ProtectedEnd;
    var once := Flow(flow.normal, Dedup(flow.transfers));
    forall t ensures t in once.transfers <==> t in flow.transfers {
      DedupSame(flow.transfers, t);
    }
    DedupOutcomes(flow.transfers);
    var before := walk.start.graph.Content(walk.cur);
    forall r | IsRunSeq(s.body, e, r) ensures Lands(w.graph, walk.cur, before + Events(r), r.out, once) {
      assert Lands(w.graph, walk.cur, before + Events(r), r.out, flow);
    }
  }

  /** No jump out of the body stays inside its own scope. */
  lemma AllLeave(walk: Walk, active: Option<nat>, future: Future, w: World, s: Stmt, e: Env, flow: Flow)
    requires s.TryFinally? && CanWalk(walk, active, future) && s.scope in walk.scopes && Protected(walk, w, s, e, flow)
    ensures Passing(Inputs(flow), s.scope) == []
  {
    hide WorldOk, SimulatesSeq, Predicted, ThroughFinally, Feeds, Follows, ActiveOk, FreshFor, ScopesPlaced, EndOk;
    forall x | x in Inputs(flow) ensures Leaves(x, s.scope) {
      InputsOf(flow, x);
      if x.FromTransfer? {
        var t := x.transfer;
        assert TransferOk(w, TrySite(walk.site, s.scope), t, ThroughFinally(s.scope, s.cleanup, e, walk.k));
        if t.kind.ToBreak? || t.kind.ToContinue? {
          var frame := walk.site.loops[|walk.site.loops| - 1];
          assert frame in walk.site.loops;
          assert t.targetScopes <= walk.site.scopes;
          assert s.scope !in walk.site.scopes;
          assert s.scope !in t.targetScopes;
        }
      }
    }
    NonePass(Inputs(flow), s.scope);
  }

  // ---- The whole statement

  /** A run through the body, from its end or its transfer through the finalizer of its group. */
  lemma ThroughGroup(
    g: Graph, s: Stmt, e: Env, start: BlockId, before: Trace, r: Run, x: Input, group: Group, c: CachedBody, out: Flow)
    requires s.TryFinally? && IsRun(s, e, r) && Reaches(g, start, before + Events(r.first), InputSource(x))
    requires x in group.inputs && InputKey(x) == group.key && Suspends(group.key) == r.first.out
    requires GroupReturned(g, s.scope, s.cleanup, e, group, c, out)
    requires out.normal.Some? ==> out.normal.value < |g.blocks| && g.Content(out.normal.value) == []
    ensures Lands(g, start, before + Events(r), r.out, out)
  {
    hide Reaches, IsRunSeq, Mark;
    var b := r.second;
    var inside := [Cleanup(s.scope, r.first.out)] + Events(b.second);
    CleanupEvents(s, e, r);
    assert Lands(g, c.entry, inside, b.out, c.flow);
    LandsVia(g, start, before + Events(r.first), InputSource(x), EntryMark(group.key), c.entry, inside, b.out, c.flow);
    assert before + Events(r.first) + EntryMark(group.key) + inside == before + Events(r);
    if b.out.Normal? {
      if group.key.None? {
        ReachesNext(g, start, before + Events(r), c.flow.normal.value, [], out.normal.value);
        assert before + Events(r) + [] + [] == before + Events(r);
      } else {
        var t :| t in out.transfers && TransferOutcome(t) == OutcomeOf(group.key.value)
            && t.source == c.flow.normal.value;
      }
    } else {
      var t :| t in c.flow.transfers && TransferOutcome(t) == b.out && Reaches(g, start, before + Events(r), t.source);
      assert WithSource(t, t.source) in out.transfers;
    }
  }

  lemma CleanupEvents(s: Stmt, e: Env, r: Run)
    requires s.TryFinally? && IsRun(s, e, r)
    ensures Events(r) == Events(r.first)
                         + (Mark(EntryKind(r.first.out)) + ([Cleanup(s.scope, r.first.out)] + Events(r.second.second)))
  {
    hide IsRunSeq, Mark;
    assert Events(r) == Events(r.first) + Events(r.second);
    assert Events(r.second) == Entered(s.scope, r.first.out) + Events(r.second.second);
    assert Entered(s.scope, r.first.out) + Events(r.second.second)
        == Mark(EntryKind(r.first.out)) + ([Cleanup(s.scope, r.first.out)] + Events(r.second.second));
  }

  lemma TryFinallySimulates(
    g: Graph, s: Stmt, e: Env, start: BlockId, before: Trace, body: Flow, groups: seq<Group>,
    bodies: seq<CachedBody>, out: Flow)
    requires s.TryFinally? && SimulatesSeq(g, s.body, e, start, before, body)
    requires Grouped(Inputs(body), s.scope, groups) && AllReturned(g, s.scope, s.cleanup, e, groups, bodies, out)
    requires Passing(Inputs(body), s.scope) == []
    requires out.normal.Some? ==> out.normal.value < |g.blocks| && g.Content(out.normal.value) == []
    ensures Simulates(g, s, e, start, before, out)
  {
    hide Reaches, IsRunSeq, GroupReturned;
    forall r | IsRun(s, e, r) ensures Lands(g, start, before + Events(r), r.out, out) {
      var a := r.first;
      assert Lands(g, start, before + Events(a), a.out, body);
      var x := InputFor(g, start, before + Events(a), a.out, body);
      PassingNone(Inputs(body), s.scope, x);
      var i :| 0 <= i < |groups| && x in groups[i].inputs;
      ThroughGroup(g, s, e, start, before, r, x, groups[i], bodies[i], out);
    }
  }

  /** The input at which a landed trace stands. */
  lemma InputFor(g: Graph, start: BlockId, trace: Trace, out: Outcome, body: Flow) returns (x: Input)
    requires Lands(g, start, trace, out, body)
    ensures x in Inputs(body) && Suspends(InputKey(x)) == out && Reaches(g, start, trace, InputSource(x))
  {
    hide Reaches;
    if out.Normal? {
      x := FromEnd(body.normal.value);
    } else {
      var t :| t in body.transfers && TransferOutcome(t) == out && Reaches(g, start, trace, t.source);
      x := FromTransfer(t);
    }
    InputsOf(body, x);
  }

  lemma {:induction false} PassingNone(inputs: seq<Input>, f: ScopeId, x: Input)
    requires Passing(inputs, f) == [] && x in inputs
    ensures Leaves(x, f)
    decreases |inputs|
  {
    var n := |inputs| - 1;
    if x != inputs[n] {
      assert x in inputs[..n];
      PassingNone(inputs[..n], f, x);
    }
  }

  lemma TryFinallyPredicted(s: Stmt, e: Env, body: Flow, groups: seq<Group>, out: Flow)
    requires s.TryFinally? && Predicted(body, CompletesSeq(s.body), OutsSeq(s.body, e))
    requires Grouped(Inputs(body), s.scope, groups) && Passing(Inputs(body), s.scope) == []
    requires Resumed(s.cleanup, e, groups, out)
    ensures Predicted(out, Completes(s), Outs(s, e))
  {
    hide CompletesSeq, OutsSeq;
    GroupedOutcomes(body, s.scope, groups);
    assert groups != [] <==> body.normal.Some? || Outcomes(body.transfers) != {} by {
      GroupsExist(body, s.scope, groups);
    }
    hide HasNormal, KeyOutcomes, Outcomes, Grouped, Passing;
  }

  lemma GroupedOutcomes(body: Flow, f: ScopeId, groups: seq<Group>)
    requires Grouped(Inputs(body), f, groups) && Passing(Inputs(body), f) == []
    ensures HasNormal(groups) <==> body.normal.Some?
    ensures KeyOutcomes(groups) == Outcomes(body.transfers)
  {
    hide Grouped, Passing, Inputs, OutcomeOf, KeyOf;
    if HasNormal(groups) {
      var i :| 0 <= i < |groups| && groups[i].key.None?;
      var x := InputOf(body, f, groups, i);
    }
    if body.normal.Some? {
      var i := GroupOf(body, f, groups, FromEnd(body.normal.value));
    }
    forall o | o in KeyOutcomes(groups) ensures o in Outcomes(body.transfers) {
      var g :| g in groups && g.key.Some? && OutcomeOf(g.key.value) == o;
      var i :| 0 <= i < |groups| && groups[i] == g;
      var x := InputOf(body, f, groups, i);
    }
    forall o | o in Outcomes(body.transfers) ensures o in KeyOutcomes(groups) {
      var t :| t in body.transfers && TransferOutcome(t) == o;
      var i := GroupOf(body, f, groups, FromTransfer(t));
      assert groups[i] in groups;
    }
  }

  lemma InputOf(body: Flow, f: ScopeId, groups: seq<Group>, i: nat) returns (x: Input)
    requires Grouped(Inputs(body), f, groups) && i < |groups|
    ensures InputKey(x) == groups[i].key
            && if x.FromEnd? then body.normal == Some(x.end) else x.transfer in body.transfers
  {
    x := groups[i].inputs[0];
    assert x in groups[i].inputs;
    InputsOf(body, x);
  }

  lemma GroupOf(body: Flow, f: ScopeId, groups: seq<Group>, x: Input) returns (i: nat)
    requires Grouped(Inputs(body), f, groups) && Passing(Inputs(body), f) == []
    requires if x.FromEnd? then body.normal == Some(x.end) else x.transfer in body.transfers
    ensures i < |groups| && groups[i].key == InputKey(x)
  {
    hide Inputs, Passing, Leaves, KeyOf;
    InputsOf(body, x);
    PassingNone(Inputs(body), f, x);
    assert InGroup(groups, x);
    i :| 0 <= i < |groups| && x in groups[i].inputs;
  }

  lemma GroupsExist(body: Flow, f: ScopeId, groups: seq<Group>)
    requires HasNormal(groups) <==> body.normal.Some?
    requires KeyOutcomes(groups) == Outcomes(body.transfers)
    ensures groups != [] <==> body.normal.Some? || Outcomes(body.transfers) != {}
  {
    if groups != [] && !HasNormal(groups) {
      assert groups[0].key.Some? && groups[0] in groups;
      assert OutcomeOf(groups[0].key.value) in KeyOutcomes(groups);
    }
  }

  /** All groups are done; duplicates among the transfers are dropped. */
  lemma TryFinallyEnds(fz: Finalizing, w: World, bodies: seq<CachedBody>, out: Flow)
    requires fz.Ok(w, bodies, out) && |bodies| == |fz.groups| && Passing(Inputs(fz.body), fz.stmt.scope) == []
    ensures var flow := Flow(out.normal, Dedup(out.transfers));
            && Finished(fz.walk, w, flow)
            && Simulates(w.graph, fz.stmt, fz.env, fz.walk.cur, fz.walk.start.graph.Content(fz.walk.cur), flow)
            && Predicted(flow, Completes(fz.stmt), Outs(fz.stmt, fz.env))
  {
    hide WorldOk, TransferOk, Extends, SimulatesSeq, IsRun, Completes, CompletesSeq, Outs, OutsSeq, Grouped;
    hide Passing, Inputs, AllReturned, Resumed;
    hide RecordedSince, Reaches;
    assert fz.groups[..|bodies|] == fz.groups;
    TryFinallySimulates(w.graph, fz.stmt, fz.env, fz.walk.cur, fz.walk.start.graph.Content(fz.walk.cur), fz.body,
                        fz.groups, bodies, out);
    TryFinallyPredicted(fz.stmt, fz.env, fz.body, fz.groups, out);
    var flow := Flow(out.normal, Dedup(out.transfers));
    forall t ensures t in flow.transfers <==> t in out.transfers {
      DedupSame(out.transfers, t);
    }
    DedupOutcomes(out.transfers);
    FeedsSelf(fz.walk.k(Normal), fz.walk.k(Normal));
    var before := fz.walk.start.graph.Content(fz.walk.cur);
    forall r | IsRun(fz.stmt, fz.env, r) ensures Lands(w.graph, fz.walk.cur, before + Events(r), r.out, flow) {
      assert Lands(w.graph, fz.walk.cur, before + Events(r), r.out, out);
    }
  }

  // ---- Steps within one group

  lemma LinkStart(w: World, ends: set<BlockId>)
    ensures Extends(w, w, ends - w.closed)
  {}

  lemma LinkMore(w0: World, w1: World, w2: World, ends: set<BlockId>, touched: set<BlockId>)
    requires GraphOk(w0) && GraphOk(w1) && Extends(w0, w1, ends - w0.closed) && Extends(w1, w2, touched)
    requires touched <= ends
    ensures Extends(w0, w2, ends - w0.closed)
  {
    assert touched !! w1.closed && w0.closed <= w1.closed;
    hide Extends, GraphOk;
    ExtendsTrans(w0, w1, w2, ends - w0.closed, touched, ends - w0.closed);
  }

  lemma GroupMisses(fz: Finalizing, w: World, bodies: seq<CachedBody>, out: Flow, active: Option<nat>, future: Future)
    requires fz.Ok(w, bodies, out) && |bodies| < |fz.groups| && CanWalk(fz.walk, active, future)
    requires fz.stmt.scope in fz.walk.scopes && fz.stmt.scope !in fz.InnerScopes()
    ensures fz.groups[|bodies|].key.None? ==> BodyKey(fz.stmt.scope, None, active, fz.walk.site) !in w.cache
  {
    hide Holding, Protected, AllReturned, Resumed, RecordedSince, WorldOk, Follows, ActiveOk, FreshFor, Apart;
    hide ScopesPlaced, EndOk, ScopesInSeq;
    if fz.groups[|bodies|].key.None? {
      NextMisses(fz.walk, active, fz.stmt.scope, w.cache, fz.InnerScopes(), fz.groups, |bodies|);
    }
  }

  lemma StillProtected(fz: Finalizing, w: World, bodies: seq<CachedBody>, out: Flow, w': World)
    requires fz.Ok(w, bodies, out) && Extends(w, w', {}) && Holding(fz.walk, w', out.transfers)
    ensures Protected(fz.walk, w', fz.stmt, fz.env, fz.body) && Grown(w.graph, w'.graph, {})
  {
    hide Protected, Grouped, AllReturned, Resumed, RecordedSince, GraphOk, Holding;
    HoldingGraph(fz.walk, w, out.transfers);
    HoldingGraph(fz.walk, w', out.transfers);
    ProtectedGrown(fz.walk, w, w', {}, fz.stmt, fz.env, fz.body);
  }

  lemma GroupEnds(
    fz: Finalizing, w0: World, w1: World, w2: World, w3: World, bodies: seq<CachedBody>, out: Flow,
    c: CachedBody, after: Option<BlockId>, key: CacheKey)
    requires fz.Ok(w0, bodies, out) && |bodies| < |fz.groups| && Extends(w0, w1, {})
    requires Holding(fz.walk, w1, out.transfers)
    requires Extends(w1, w2, fz.BodyEnd() - w1.closed) && Grown(w1.graph, w2.graph, {})
    requires Holding(fz.walk, w2, out.transfers)
    requires Extends(w2, w3, {}) && Grown(w2.graph, w3.graph, {}) && Holding(fz.walk, w3, out.transfers)
    requires Finalizes(fz.walk, w2, fz.stmt.scope, fz.stmt.cleanup, fz.env, Suspends(fz.groups[|bodies|].key), c)
    requires forall x :: x in fz.groups[|bodies|].inputs ==>
               w2.graph.Links(InputSource(x), EntryMark(fz.groups[|bodies|].key), c.entry)
    requires fz.groups[|bodies|].key.None? && c.flow.normal.Some? ==>
               && after.Some? && w3.graph.Links(c.flow.normal.value, [], after.value) && after != fz.body.normal
               && Reserved(fz.walk, w3, after.value, Note(fz.walk.k(Normal), fz.walk.site.scopes, Plain))
    requires NewBodies(w0.cache, w1.cache, key, ScopesInSeq(fz.stmt.cleanup)) && w3.cache == w2.cache == w1.cache
    requires key.scope == fz.stmt.scope && key.continuation == fz.groups[|bodies|].key
    ensures fz.Ok(w3, bodies + [c], GroupOutput(out, fz.groups[|bodies|], c.flow, after))
  {
    hide Holding, Protected, Grouped, AllReturned, Resumed, RecordedSince, GraphOk, Finalizes, Reserved;
    hide NewBodies, ScopesInSeq, Resumption, Marked;
    var touched := fz.BodyEnd() - w0.closed;
    HoldingGraph(fz.walk, w0, out.transfers);
    HoldingGraph(fz.walk, w1, out.transfers);
    HoldingGraph(fz.walk, w2, out.transfers);
    HoldingGraph(fz.walk, w3, out.transfers);
    GroupGrows(w0, w1, w2, w3, fz.BodyEnd());
    FinalizesKept(fz.walk, w2, w3, {}, fz.stmt.scope, fz.stmt.cleanup, fz.env, Suspends(fz.groups[|bodies|].key), c);
    var mark := EntryMark(fz.groups[|bodies|].key);
    forall x | x in fz.groups[|bodies|].inputs ensures w3.graph.Links(InputSource(x), mark, c.entry) {
      EdgeGrown(w2.graph, w3.graph, {}, InputSource(x), mark, c.entry);
    }
    GroupDone(fz, w0, w3, touched, bodies, out, c, after, key);
  }

  lemma GroupGrows(w0: World, w1: World, w2: World, w3: World, ends: set<BlockId>)
    requires GraphOk(w0) && GraphOk(w1) && GraphOk(w2)
    requires Extends(w0, w1, {}) && Extends(w1, w2, ends - w1.closed) && Extends(w2, w3, {})
    requires Grown(w1.graph, w2.graph, {}) && Grown(w2.graph, w3.graph, {})
    ensures Extends(w0, w3, ends - w0.closed) && Grown(w0.graph, w3.graph, {})
  {
    assert w0.closed <= w1.closed && Grown(w0.graph, w1.graph, {});
    assert (ends - w1.closed) <= ends - w0.closed;
    hide GraphOk, Extends, Grown;
    ExtendsTrans(w0, w1, w2, {}, ends - w1.closed, ends - w0.closed);
    ExtendsTrans(w0, w2, w3, ends - w0.closed, {}, ends - w0.closed);
    GrownTrans(w0.graph, w1.graph, w2.graph);
    GrownTrans(w0.graph, w2.graph, w3.graph);
  }
}
