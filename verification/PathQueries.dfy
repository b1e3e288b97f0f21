/** Path queries on control-flow graphs: reachability, required blocks and shortest detours. */
module PathQueries {
  import opened PascalSyntax
  import opened StructuredRuns
  import opened ControlFlowGraph

  // ---- Paths as block lists

  ghost predicate BlockPath(g: Graph, p: seq<BlockId>, a: BlockId, b: BlockId) {
    && p != [] && p[0] == a && p[|p| - 1] == b
    && forall i :: 0 <= i < |p| - 1 ==> g.HasEdge(p[i], p[i + 1])
  }

  ghost predicate Avoids(p: seq<BlockId>, through: set<BlockId>) {
    forall i :: 0 <= i < |p| ==> p[i] !in through
  }

  /** Every path from `from` to `exit` has a block of `through` on it. */
  ghost predicate MustPass(g: Graph, from: BlockId, exit: BlockId, through: set<BlockId>) {
    forall p :: BlockPath(g, p, from, exit) ==> !Avoids(p, through)
  }

  lemma PathExtends(g: Graph, p: seq<BlockId>, a: BlockId, b: BlockId, c: BlockId)
    requires BlockPath(g, p, a, b) && g.HasEdge(b, c)
    ensures BlockPath(g, p + [c], a, c)
  {
    var q := p + [c];
    forall i | 0 <= i < |q| - 1 ensures g.HasEdge(q[i], q[i + 1]) {
      if i < |p| - 1 {
        assert g.HasEdge(p[i], p[i + 1]);
      }
    }
  }

  /** A path from a set that is closed under the steps it can take stays in the set. */
  lemma {:induction false} PathStaysIn(
    g: Graph, p: seq<BlockId>, a: BlockId, b: BlockId, inside: set<BlockId>, barred: set<BlockId>)
    requires BlockPath(g, p, a, b) && Avoids(p, barred) && a in inside
    requires forall x, y :: x in inside && g.HasEdge(x, y) ==> y in inside || y in barred
    ensures b in inside
    decreases |p|
  {
    if |p| > 1 {
      assert g.HasEdge(p[0], p[1]);
      var rest := p[1..];
      forall i | 0 <= i < |rest| - 1 ensures g.HasEdge(rest[i], rest[i + 1]) {
        assert g.HasEdge(p[i + 1], p[i + 2]);
      }
      PathStaysIn(g, rest, p[1], b, inside, barred);
    }
  }

  // ---- Neighbours

  function Targets(es: seq<Edge>, b: BlockId): seq<BlockId> {
    if es == [] then [] else (if es[0].src == b then [es[0].dst] else []) + Targets(es[1..], b)
  }

  function Sources(es: seq<Edge>, b: BlockId): seq<BlockId> {
    if es == [] then [] else (if es[0].dst == b then [es[0].src] else []) + Sources(es[1..], b)
  }

  lemma {:induction false} TargetsAre(es: seq<Edge>, b: BlockId, c: BlockId)
    ensures c in Targets(es, b) <==> exists e :: e in es && e.src == b && e.dst == c
    decreases |es|
  {
    if es != [] {
      TargetsAre(es[1..], b, c);
    }
  }

  lemma {:induction false} SourcesAre(es: seq<Edge>, b: BlockId, c: BlockId)
    ensures c in Sources(es, b) <==> exists e :: e in es && e.src == c && e.dst == b
    decreases |es|
  {
    if es != [] {
      SourcesAre(es[1..], b, c);
    }
  }

  /** The blocks that a search can meet. */
  function Universe(g: Graph, start: BlockId): set<BlockId> {
    {start} + (set e | e in g.edges :: e.src) + (set e | e in g.edges :: e.dst)
  }

  lemma TargetsInUniverse(g: Graph, start: BlockId, b: BlockId)
    ensures forall c :: c in Targets(g.edges, b) ==> c in Universe(g, start)
    ensures forall c :: c in Sources(g.edges, b) ==> c in Universe(g, start)
  {
    forall c | c in Targets(g.edges, b) ensures c in Universe(g, start) {
      TargetsAre(g.edges, b, c);
    }
    forall c | c in Sources(g.edges, b) ensures c in Universe(g, start) {
      SourcesAre(g.edges, b, c);
    }
  }

  // ---- Required blocks

  /** Some path from `from` to `b` meets `through` only, if at all, in `b` itself. */
  ghost predicate Found(g: Graph, from: BlockId, through: BlockId, b: BlockId) {
    exists p :: BlockPath(g, p, from, b) && Avoids(p[..|p| - 1], {through})
  }

  lemma FoundHere(g: Graph, from: BlockId, through: BlockId)
    ensures Found(g, from, through, from)
  {
    assert BlockPath(g, [from], from, from) && Avoids([from][..0], {through});
  }

  lemma FoundNext(g: Graph, from: BlockId, through: BlockId, b: BlockId, c: BlockId)
    requires Found(g, from, through, b) && b != through && c in Targets(g.edges, b)
    ensures Found(g, from, through, c)
  {
    var p :| BlockPath(g, p, from, b) && Avoids(p[..|p| - 1], {through});
    TargetsAre(g.edges, b, c);
    PathExtends(g, p, from, b, c);
    assert (p + [c])[..|p|] == p;
    assert Avoids(p, {through}) by {
      forall i | 0 <= i < |p| ensures p[i] !in {through} {
        assert i < |p| - 1 ==> p[..|p| - 1][i] == p[i];
      }
    }
  }

  lemma FoundBypass(g: Graph, from: BlockId, through: BlockId, exit: BlockId)
    requires Found(g, from, through, exit) && exit != through
    ensures !MustPass(g, from, exit, {through})
  {
    var p :| BlockPath(g, p, from, exit) && Avoids(p[..|p| - 1], {through});
    assert Avoids(p, {through}) by {
      forall i | 0 <= i < |p| ensures p[i] !in {through} {
        assert i < |p| - 1 ==> p[..|p| - 1][i] == p[i];
      }
    }
  }

  method MustPassThrough(g: Graph, exit: BlockId, from: BlockId, through: BlockId) returns (must: bool)
    ensures must <==> MustPass(g, from, exit, {through})
  {
    if from == through {
      assert forall p :: BlockPath(g, p, from, exit) ==> p[0] in {through};
      return true;
    }
    var visited: set<BlockId> := {};
    var stack := [from];
    FoundHere(g, from, through);
    ghost var universe := Universe(g, from);
    while stack != []
      invariant visited <= universe && (forall b :: b in stack ==> b in universe && Found(g, from, through, b))
      invariant exit !in visited && through !in visited && (from in visited || from in stack)
      invariant forall x, y :: x in visited && g.HasEdge(x, y) ==> y in visited || y in stack || y == through
      decreases |universe - visited|, |stack|
    {
      var node := stack[|stack| - 1];
      ghost var before := stack;
      stack := stack[..|stack| - 1];
      assert forall b :: b in before <==> b in stack || b == node;
      if node == through {
        continue;
      }
      if node == exit {
        FoundBypass(g, from, through, exit);
        return false;
      }
      if node in visited {
        continue;
      }
      ghost var old_visited := visited;
      visited := visited + {node};
      assert universe - visited < universe - old_visited;
      SmallerSet(universe - visited, universe - old_visited);
      TargetsInUniverse(g, from, node);
      forall c | c in Targets(g.edges, node) ensures Found(g, from, through, c) {
        FoundNext(g, from, through, node, c);
      }
      forall y | g.HasEdge(node, y) ensures y in Targets(g.edges, node) {
        TargetsAre(g.edges, node, y);
      }
      stack := stack + Targets(g.edges, node);
    }
    forall p | BlockPath(g, p, from, exit) ensures !Avoids(p, {through}) {
      if Avoids(p, {through}) {
        PathStaysIn(g, p, from, exit, visited, {through});
      }
    }
    must := true;
  }

  lemma SmallerSet(a: set<BlockId>, b: set<BlockId>)
    requires a < b
    ensures |a| < |b|
  {
    assert b == a + (b - a);
    assert b - a != {};
  }

  // ---- Routes: paths as edge lists

  /** A non-empty edge list from `a` to `b`. */
  ghost predicate Route(g: Graph, es: seq<Edge>, a: BlockId, b: BlockId) {
    && es != [] && es[0].src == a && es[|es| - 1].dst == b
    && (forall i :: 0 <= i < |es| ==> es[i] in g.edges)
    && (forall i :: 0 <= i < |es| - 1 ==> es[i].dst == es[i + 1].src)
  }

  predicate Takes(e: Edge, from: BlockId, avoid: set<BlockId>, skip: set<EdgeKind>) {
    e.dst !in avoid && !(e.src == from && e.kind in skip)
  }

  /** The edges lead from `a` to `b` and may all be taken. */
  ghost predicate Joins(
    g: Graph, es: seq<Edge>, a: BlockId, b: BlockId, from: BlockId, avoid: set<BlockId>, skip: set<EdgeKind>)
  {
    Route(g, es, a, b) && forall i :: 0 <= i < |es| ==> Takes(es[i], from, avoid, skip)
  }

  /** Enters no avoided block and leaves `from` by no skipped edge. */
  ghost predicate Detour(
    g: Graph, es: seq<Edge>, from: BlockId, to: BlockId, avoid: set<BlockId>, skip: set<EdgeKind>)
  {
    && Route(g, es, from, to)
    && (forall i :: 0 <= i < |es| ==> es[i].dst !in avoid)
    && (forall i :: 0 <= i < |es| && es[i].src == from ==> es[i].kind !in skip)
  }

  // ---- Breadth-first search

  datatype Query = Query(graph: Graph, from: BlockId, to: BlockId, avoid: set<BlockId>, skip: set<EdgeKind>) {
    predicate Allows(e: Edge) {
      Takes(e, from, avoid, skip)
    }

    ghost predicate Answers(es: seq<Edge>) {
      Detour(graph, es, from, to, avoid, skip)
    }
  }

  /** The tree of discovering edges with its depths, the queue with its levels, and the expanded blocks. */
  datatype Search = Search(
    parent: map<BlockId, Edge>, depth: map<BlockId, nat>, queue: seq<BlockId>, levels: seq<nat>, level: nat,
    expanded: set<BlockId>)

  /** Every discovered block hangs on the tree of discovering edges at its depth. */
  ghost predicate Tree(q: Query, parent: map<BlockId, Edge>, depth: map<BlockId, nat>) {
    parent.Keys == depth.Keys && forall b :: b in parent ==> TreeEdge(q, parent, depth, b)
  }

  ghost predicate TreeEdge(q: Query, parent: map<BlockId, Edge>, depth: map<BlockId, nat>, b: BlockId)
    requires b in parent && parent.Keys == depth.Keys
  {
    var e := parent[b];
    && e in q.graph.edges && e.dst == b && q.Allows(e)
    && (if e.src == q.from then depth[b] == 1 else e.src in parent && depth[b] == depth[e.src] + 1)
  }

  /** Depth at which a block is expanded; the start counts as the root. */
  function Level(q: Query, depth: map<BlockId, nat>, b: BlockId): nat {
    if b == q.from then 0 else if b in depth then depth[b] else 0
  }

  /** All edges that may be taken out of a block lead to discovered blocks, one level down at most. */
  ghost predicate Explored(es: seq<Edge>, q: Query, depth: map<BlockId, nat>, b: BlockId) {
    forall e :: e in es && e.src == b && q.Allows(e) ==> e.dst in depth && depth[e.dst] <= Level(q, depth, b) + 1
  }

  /** The queue holds the levels `level` and `level + 1`, in order. */
  ghost predicate Queued(q: Query, s: Search) {
    && |s.queue| == |s.levels|
    && (forall i :: 0 <= i < |s.queue| ==> s.level <= s.levels[i] <= s.level + 1)
    && (forall i, j :: 0 <= i < j < |s.levels| ==> s.levels[i] <= s.levels[j])
    && (forall i :: 0 <= i < |s.queue| ==> QueuedAt(q, s.depth, s.queue[i], s.levels[i]))
    && (forall b :: b in s.depth ==> s.depth[b] <= s.level + 1)
  }

  ghost predicate QueuedAt(q: Query, depth: map<BlockId, nat>, b: BlockId, level: nat) {
    (b in depth && level == depth[b]) || (b == q.from && level == 0)
  }

  /** What the search has found out so far. */
  ghost predicate Searching(q: Query, s: Search) {
    && Tree(q, s.parent, s.depth)
    && Queued(q, s)
    && q.to !in s.parent
    && (q.from in s.expanded || (s.queue == [q.from] && s.levels == [0] && s.parent == map[]))
    && (forall b :: b in s.parent || b == q.from ==> b in s.expanded || b in s.queue)
    && (forall b :: b in s.expanded ==> b == q.from || b in s.parent)
    && (forall b :: b in s.expanded ==> Explored(q.graph.edges, q, s.depth, b))
  }

  /** One block is being expanded: its first `i` edges have been looked at. */
  ghost predicate Expanding(q: Query, s: Search, block: BlockId, i: nat)
    requires i <= |q.graph.edges|
  {
    && Tree(q, s.parent, s.depth)
    && Queued(q, s)
    && q.to !in s.parent
    && (q.from in s.expanded || q.from == block)
    && block !in s.expanded && (block == q.from || block in s.parent) && Level(q, s.depth, block) == s.level
    && (forall b :: b in s.parent ==> b in s.expanded || b == block || b in s.queue)
    && (forall b :: b in s.expanded ==> b == q.from || b in s.parent)
    && (forall b :: b in s.expanded ==> Explored(q.graph.edges, q, s.depth, b))
    && Explored(q.graph.edges[..i], q, s.depth, block)
  }

  /** Along a detour every block is discovered no deeper than its distance, while expanded blocks last. */
  lemma {:induction false} DetourDiscovered(
    q: Query, depth: map<BlockId, nat>, expanded: set<BlockId>, es: seq<Edge>, bound: nat)
    requires q.Answers(es)
    requires q.from in expanded && forall b :: b in expanded ==> Explored(q.graph.edges, q, depth, b)
    requires forall b :: b in depth && b != q.from && depth[b] < bound ==> b in expanded
    requires |es| <= bound
    ensures q.to in depth && depth[q.to] <= |es|
    decreases |es|
  {
    var n := |es| - 1;
    var e := es[n];
    assert q.Allows(e) && e in q.graph.edges;
    if n == 0 {
      assert Explored(q.graph.edges, q, depth, q.from);
    } else {
      var front := es[..n];
      assert front[n - 1].dst == e.src;
      DetourDiscovered(q.(to := e.src), depth, expanded, front, bound);
      assert Explored(q.graph.edges, q, depth, e.src);
    }
  }

  /** Nothing left to expand: there is no detour. */
  lemma NoDetour(q: Query, s: Search, es: seq<Edge>)
    requires Searching(q, s) && s.queue == []
    ensures !q.Answers(es)
  {
    if q.Answers(es) {
      DetourDiscovered(q, s.depth, s.expanded, es, |es|);
    }
  }

  /** The target is discovered while a block of this level is expanded: no shorter detour exists. */
  lemma NoShorter(q: Query, depth: map<BlockId, nat>, expanded: set<BlockId>, level: nat, es: seq<Edge>)
    requires q.Answers(es) && q.to !in depth && (q.from in expanded || level == 0)
    requires forall b :: b in expanded ==> Explored(q.graph.edges, q, depth, b)
    requires forall b :: b in depth && b != q.from && depth[b] < level ==> b in expanded
    ensures |es| > level
  {
    if |es| <= level {
      DetourDiscovered(q, depth, expanded, es, level);
    }
  }

  lemma SearchStart(q: Query)
    ensures Searching(q, Search(map[], map[], [q.from], [0], 0, {}))
  {}

  lemma PopExpanded(q: Query, s: Search)
    requires Searching(q, s) && s.queue != [] && s.queue[0] in s.expanded
    ensures Searching(q, s.(queue := s.queue[1..], levels := s.levels[1..]))
  {
    hide TreeEdge, Explored;
    assert forall b :: b in s.queue <==> b == s.queue[0] || b in s.queue[1..];
  }

  lemma PopNew(q: Query, s: Search)
    requires Searching(q, s) && s.queue != [] && s.queue[0] !in s.expanded
    ensures Expanding(q, s.(queue := s.queue[1..], levels := s.levels[1..], level := s.levels[0]), s.queue[0], 0)
  {
    hide TreeEdge;
    assert forall b :: b in s.queue <==> b == s.queue[0] || b in s.queue[1..];
    assert QueuedAt(q, s.depth, s.queue[0], s.levels[0]);
  }

  lemma ExpandSkip(q: Query, s: Search, block: BlockId, i: nat)
    requires i < |q.graph.edges| && Expanding(q, s, block, i)
    requires q.graph.edges[i].src != block || !q.Allows(q.graph.edges[i]) || q.graph.edges[i].dst in s.parent
    ensures Expanding(q, s, block, i + 1)
  {
    hide TreeEdge;
    assert q.graph.edges[..i + 1] == q.graph.edges[..i] + [q.graph.edges[i]];
  }

  /** A new block hangs on the edge that discovers it. */
  lemma Discover(q: Query, parent: map<BlockId, Edge>, depth: map<BlockId, nat>, e: Edge)
    requires Tree(q, parent, depth) && e in q.graph.edges && e.dst !in parent && q.Allows(e)
    requires e.src == q.from || e.src in parent
    ensures Tree(q, parent[e.dst := e], depth[e.dst := Level(q, depth, e.src) + 1])
  {
    var parent' := parent[e.dst := e];
    var depth' := depth[e.dst := Level(q, depth, e.src) + 1];
    forall b | b in parent' ensures TreeEdge(q, parent', depth', b) {
      if b != e.dst {
        assert TreeEdge(q, parent, depth, b);
      }
    }
  }

  lemma ExploredMore(es: seq<Edge>, q: Query, depth: map<BlockId, nat>, b: BlockId, c: BlockId, n: nat)
    requires Explored(es, q, depth, b) && c !in depth && (b == q.from || b in depth)
    ensures Explored(es, q, depth[c := n], b) && Level(q, depth[c := n], b) == Level(q, depth, b)
  {}

  /** The search after the edge `e` has discovered its target. */
  function Discovered(s: Search, e: Edge): Search {
    s.(parent := s.parent[e.dst := e], depth := s.depth[e.dst := s.level + 1],
       queue := s.queue + [e.dst], levels := s.levels + [s.level + 1])
  }

  lemma QueuedMore(q: Query, s: Search, e: Edge)
    requires Queued(q, s) && e.dst !in s.depth
    ensures Queued(q, Discovered(s, e))
  {
    var s' := Discovered(s, e);
    forall i | 0 <= i < |s'.queue| ensures QueuedAt(q, s'.depth, s'.queue[i], s'.levels[i]) {
      if i < |s.queue| {
        assert QueuedAt(q, s.depth, s.queue[i], s.levels[i]);
      }
    }
  }

  lemma ExpandNew(q: Query, s: Search, block: BlockId, i: nat)
    requires i < |q.graph.edges| && Expanding(q, s, block, i)
    requires q.graph.edges[i].src == block && q.Allows(q.graph.edges[i])
    requires q.graph.edges[i].dst !in s.parent && q.graph.edges[i].dst != q.to
    ensures Expanding(q, Discovered(s, q.graph.edges[i]), block, i + 1)
  {
    hide TreeEdge, Explored, Queued, Tree;
    var e := q.graph.edges[i];
    var s' := Discovered(s, e);
    TreeKeys(q, s);
    Discover(q, s.parent, s.depth, e);
    QueuedMore(q, s, e);
    forall b | b in s.expanded ensures Explored(q.graph.edges, q, s'.depth, b) {
      ExploredMore(q.graph.edges, q, s.depth, b, e.dst, s.level + 1);
    }
    ExploredNext(q, s, block, i);
    assert forall b :: b in s'.queue <==> b in s.queue || b == e.dst;
  }

  lemma TreeKeys(q: Query, s: Search)
    requires Tree(q, s.parent, s.depth)
    ensures s.parent.Keys == s.depth.Keys
  {}

  lemma ExploredNext(q: Query, s: Search, block: BlockId, i: nat)
    requires i < |q.graph.edges| && Explored(q.graph.edges[..i], q, s.depth, block)
    requires (block == q.from || block in s.depth)
    requires q.graph.edges[i].dst !in s.depth && Level(q, s.depth, block) == s.level
    ensures Explored(q.graph.edges[..i + 1], q, Discovered(s, q.graph.edges[i]).depth, block)
    ensures Level(q, Discovered(s, q.graph.edges[i]).depth, block) == s.level
  {
    var e := q.graph.edges[i];
    ExploredMore(q.graph.edges[..i], q, s.depth, block, e.dst, s.level + 1);
    assert q.graph.edges[..i + 1] == q.graph.edges[..i] + [e];
  }

  lemma ExpandDone(q: Query, s: Search, block: BlockId)
    requires Expanding(q, s, block, |q.graph.edges|)
    ensures Searching(q, s.(expanded := s.expanded + {block})) && block !in s.expanded
  {
    hide TreeEdge, Explored, Queued;
    assert q.graph.edges[..|q.graph.edges|] == q.graph.edges;
    assert Queued(q, s.(expanded := s.expanded + {block})) by {
      QueuedExpanded(q, s, s.expanded + {block});
    }
  }

  lemma QueuedExpanded(q: Query, s: Search, expanded: set<BlockId>)
    requires Queued(q, s)
    ensures Queued(q, s.(expanded := expanded))
  {}

  /** The first edge to the target ends the search with a shortest detour. */
  lemma Arrives(q: Query, s: Search, block: BlockId, i: nat)
    requires i < |q.graph.edges| && Expanding(q, s, block, i)
    requires q.graph.edges[i].src == block && q.Allows(q.graph.edges[i]) && q.graph.edges[i].dst == q.to
    ensures Tree(q, s.parent[q.to := q.graph.edges[i]], s.depth[q.to := s.level + 1])
    ensures forall es :: q.Answers(es) ==> |es| >= s.level + 1
  {
    Discover(q, s.parent, s.depth, q.graph.edges[i]);
    hide TreeEdge, Explored;
    Shallow(q, s, block, i);
    forall es | q.Answers(es) ensures |es| >= s.level + 1 {
      NoShorter(q, s.depth, s.expanded, s.level, es);
    }
  }

  /** Blocks above the current level have all been expanded. */
  lemma Shallow(q: Query, s: Search, block: BlockId, i: nat)
    requires i <= |q.graph.edges| && Expanding(q, s, block, i)
    ensures forall b :: b in s.depth && b != q.from && s.depth[b] < s.level ==> b in s.expanded
  {
    hide TreeEdge, Explored;
    forall m | 0 <= m < |s.queue| ensures s.queue[m] == q.from || s.depth[s.queue[m]] >= s.level {
      assert QueuedAt(q, s.depth, s.queue[m], s.levels[m]);
    }
  }

  /** Follow the discovering edges back from the target. */
  method Reconstruct(
    parent: map<BlockId, Edge>, from: BlockId, to: BlockId, ghost q: Query, ghost depth: map<BlockId, nat>)
    returns (path: seq<Edge>)
    requires q.from == from && q.to == to && Tree(q, parent, depth) && to in parent
    ensures q.Answers(path) && |path| == depth[to]
  {
    path := [];
    var current := to;
    while true
      invariant current in parent && |path| + depth[current] == depth[to]
      invariant if path == [] then current == to else Joins(q.graph, path, current, to, from, q.avoid, q.skip)
      decreases depth[current]
    {
      var edge := parent[current];
      assert TreeEdge(q, parent, depth, current);
      JoinsMore(q.graph, path, current, to, from, q.avoid, q.skip, edge);
      path := [edge] + path;
      current := edge.src;
      if current == from {
        break;
      }
    }
  }

  lemma JoinsMore(
    g: Graph, es: seq<Edge>, a: BlockId, b: BlockId, from: BlockId, avoid: set<BlockId>, skip: set<EdgeKind>, e: Edge)
    requires e in g.edges && Takes(e, from, avoid, skip) && e.dst == a
    requires if es == [] then a == b else Joins(g, es, a, b, from, avoid, skip)
    ensures Joins(g, [e] + es, e.src, b, from, avoid, skip)
  {
    var all := [e] + es;
    forall i | 0 <= i < |all| - 1 ensures all[i].dst == all[i + 1].src {
      if i > 0 {
        assert es[i - 1].dst == es[i].src;
      }
    }
  }

  method PathAvoiding(g: Graph, from: BlockId, to: BlockId, avoid: set<BlockId>, skip: set<EdgeKind>)
    returns (path: Option<seq<Edge>>)
    ensures path.Some? ==> Detour(g, path.value, from, to, avoid, skip)
    ensures path.Some? ==> forall es :: Detour(g, es, from, to, avoid, skip) ==> |path.value| <= |es|
    ensures path.None? ==> forall es :: !Detour(g, es, from, to, avoid, skip)
  {
    hide Searching, Expanding, Detour, Tree, Takes, Universe, Within;
    if to in avoid {
      AvoidedTarget(g, from, to, avoid, skip);
      return None;
    }
    ghost var q := Query(g, from, to, avoid, skip);
    var parent: map<BlockId, Edge> := map[];
    var queue, expanded := [from], {};
    ghost var depth: map<BlockId, nat>, levels: seq<nat>, level: nat := map[], [0], 0;
    ghost var universe := Universe(g, from);
    WithinStart(g, from);
    SearchStart(q);
    while queue != []
      invariant Searching(q, Search(parent, depth, queue, levels, level, expanded)) && |queue| == |levels|
      invariant Within(universe, queue, expanded)
      decreases |universe - expanded|, |queue|
    {
      var block := queue[0];
      WithinNext(g, from, queue, expanded);
      ghost var s := Search(parent, depth, queue, levels, level, expanded);
      if block in expanded {
        PopExpanded(q, s);
        queue, levels := queue[1..], levels[1..];
        continue;
      }
      PopNew(q, s);
      level := levels[0];
      queue, levels := queue[1..], levels[1..];
      var i := 0;
      while i < |g.edges|
        invariant 0 <= i <= |g.edges| && |queue| == |levels|
        invariant Expanding(q, Search(parent, depth, queue, levels, level, expanded), block, i)
        invariant Within(universe, queue, expanded)
      {
        var edge := g.edges[i];
        s := Search(parent, depth, queue, levels, level, expanded);
        if edge.src != block || !Takes(edge, from, avoid, skip) || edge.dst in parent {
          ExpandSkip(q, s, block, i);
        } else if edge.dst == to {
          Arrives(q, s, block, i);
          var found := Reconstruct(parent[to := edge], from, to, q, depth[to := level + 1]);
          return Some(found);
        } else {
          ExpandNew(q, s, block, i);
          WithinMore(g, from, queue, expanded, edge);
          parent := parent[edge.dst := edge];
          depth := depth[edge.dst := level + 1];
          queue, levels := queue + [edge.dst], levels + [level + 1];
        }
        i := i + 1;
      }
      ExpandDone(q, Search(parent, depth, queue, levels, level, expanded), block);
      WithinExpanded(universe, queue, expanded, block);
      expanded := expanded + {block};
    }
    forall es ensures !Detour(g, es, from, to, avoid, skip) {
      NoDetour(q, Search(parent, depth, queue, levels, level, expanded), es);
    }
    path := None;
  }

  lemma AvoidedTarget(g: Graph, from: BlockId, to: BlockId, avoid: set<BlockId>, skip: set<EdgeKind>)
    requires to in avoid
    ensures forall es :: !Detour(g, es, from, to, avoid, skip)
  {
    assert forall es :: Detour(g, es, from, to, avoid, skip) ==> Takes(es[|es| - 1], from, avoid, skip);
  }

  // The search stays within finitely many blocks.

  ghost predicate Within(universe: set<BlockId>, queue: seq<BlockId>, expanded: set<BlockId>) {
    expanded <= universe && forall b :: b in queue ==> b in universe
  }

  lemma WithinStart(g: Graph, from: BlockId)
    ensures Within(Universe(g, from), [from], {})
  {}

  lemma WithinNext(g: Graph, from: BlockId, queue: seq<BlockId>, expanded: set<BlockId>)
    requires Within(Universe(g, from), queue, expanded) && queue != []
    ensures Within(Universe(g, from), queue[1..], expanded) && queue[0] in Universe(g, from)
  {
    assert forall b :: b in queue[1..] ==> b in queue;
  }

  lemma WithinMore(g: Graph, from: BlockId, queue: seq<BlockId>, expanded: set<BlockId>, e: Edge)
    requires Within(Universe(g, from), queue, expanded) && e in g.edges
    ensures Within(Universe(g, from), queue + [e.dst], expanded)
  {
    assert forall b :: b in queue + [e.dst] <==> b in queue || b == e.dst;
  }

  lemma WithinExpanded(universe: set<BlockId>, queue: seq<BlockId>, expanded: set<BlockId>, block: BlockId)
    requires Within(universe, queue, expanded) && block in universe && block !in expanded
    ensures Within(universe, queue, expanded + {block}) && |universe - (expanded + {block})| < |universe - expanded|
  {
    SmallerSet(universe - (expanded + {block}), universe - expanded);
  }

  // ---- Required sets of blocks

  /** Block paths that avoid a set and edge routes that avoid it are the same paths. */
  lemma {:induction false} DetourFromPath(
    g: Graph, p: seq<BlockId>, a: BlockId, b: BlockId, from: BlockId, avoid: set<BlockId>)
    returns (es: seq<Edge>)
    requires BlockPath(g, p, a, b) && |p| > 1 && Avoids(p[1..], avoid)
    ensures Joins(g, es, a, b, from, avoid, {})
    decreases |p|
  {
    assert g.HasEdge(p[0], p[1]);
    var e :| e in g.edges && e.src == p[0] && e.dst == p[1];
    assert p[1..][0] == p[1];
    if |p| == 2 {
      es := [e];
    } else {
      var rest := p[1..];
      forall i | 0 <= i < |rest| - 1 ensures g.HasEdge(rest[i], rest[i + 1]) {
        assert g.HasEdge(p[i + 1], p[i + 2]);
      }
      assert Avoids(rest[1..], avoid) by {
        forall i | 0 <= i < |rest[1..]| ensures rest[1..][i] !in avoid {
          assert rest[1..][i] == p[1..][i + 1];
        }
      }
      var more := DetourFromPath(g, rest, p[1], b, from, avoid);
      JoinsMore(g, more, p[1], b, from, avoid, {}, e);
      es := [e] + more;
    }
  }

  lemma {:induction false} PathFromDetour(
    g: Graph, es: seq<Edge>, a: BlockId, b: BlockId, from: BlockId, avoid: set<BlockId>)
    returns (p: seq<BlockId>)
    requires Joins(g, es, a, b, from, avoid, {})
    ensures BlockPath(g, p, a, b) && |p| == |es| + 1 && Avoids(p[1..], avoid)
    decreases |es|
  {
    var e := es[0];
    assert g.HasEdge(e.src, e.dst) && Takes(e, from, avoid, {});
    if |es| == 1 {
      p := [a, b];
    } else {
      var rest := es[1..];
      assert es[0].dst == es[1].src;
      assert Joins(g, rest, e.dst, b, from, avoid, {}) by {
        forall i | 0 <= i < |rest| - 1 ensures rest[i].dst == rest[i + 1].src {
          assert es[i + 1].dst == es[i + 2].src;
        }
        forall i | 0 <= i < |rest| ensures rest[i] in g.edges && Takes(rest[i], from, avoid, {}) {
          assert rest[i] == es[i + 1];
        }
      }
      var q := PathFromDetour(g, rest, e.dst, b, from, avoid);
      p := [a] + q;
      forall i | 0 <= i < |p| - 1 ensures g.HasEdge(p[i], p[i + 1]) {
        if i > 0 {
          assert g.HasEdge(q[i - 1], q[i]);
        }
      }
      forall i | 0 <= i < |p[1..]| ensures p[1..][i] !in avoid {
        assert p[1..][i] == q[i];
        if i > 0 {
          assert q[i] == q[1..][i - 1];
        }
      }
    }
  }

  method MustPassThroughAny(g: Graph, exit: BlockId, from: BlockId, through: set<BlockId>) returns (must: bool)
    ensures must <==> MustPass(g, from, exit, through)
  {
    if from in through {
      assert forall p :: BlockPath(g, p, from, exit) ==> p[0] in through;
      return true;
    }
    if from == exit {
      assert BlockPath(g, [from], from, exit) && Avoids([from], through);
      return false;
    }
    var path := PathAvoiding(g, from, exit, through, {});
    if path.Some? {
      DetourBypasses(g, path.value, from, exit, through);
      return false;
    }
    forall p | BlockPath(g, p, from, exit) ensures !Avoids(p, through) {
      if Avoids(p, through) {
        assert |p| > 1 && Avoids(p[1..], through);
        var es := DetourFromPath(g, p, from, exit, from, through);
        assert Detour(g, es, from, exit, through, {});
      }
    }
    must := true;
  }

  lemma DetourBypasses(g: Graph, es: seq<Edge>, from: BlockId, exit: BlockId, through: set<BlockId>)
    requires Detour(g, es, from, exit, through, {}) && from !in through
    ensures !MustPass(g, from, exit, through)
  {
    var p := PathFromDetour(g, es, from, exit, from, through);
    forall i | 0 <= i < |p| ensures p[i] !in through {
      if i > 0 {
        assert p[i] == p[1..][i - 1];
      }
    }
  }

  // ---- Blocks between two blocks

  ghost predicate Connected(g: Graph, a: BlockId, b: BlockId) {
    exists p :: BlockPath(g, p, a, b)
  }

  lemma ConnectedHere(g: Graph, a: BlockId)
    ensures Connected(g, a, a)
  {
    assert BlockPath(g, [a], a, a);
  }

  lemma ConnectedNext(g: Graph, a: BlockId, b: BlockId, c: BlockId)
    requires Connected(g, a, b) && g.HasEdge(b, c)
    ensures Connected(g, a, c)
  {
    var p :| BlockPath(g, p, a, b);
    PathExtends(g, p, a, b, c);
  }

  lemma ConnectedBefore(g: Graph, a: BlockId, b: BlockId, c: BlockId)
    requires g.HasEdge(a, b) && Connected(g, b, c)
    ensures Connected(g, a, c)
  {
    var p :| BlockPath(g, p, b, c);
    var q := [a] + p;
    forall i | 0 <= i < |q| - 1 ensures g.HasEdge(q[i], q[i + 1]) {
      if i > 0 {
        assert g.HasEdge(p[i - 1], p[i]);
      }
    }
    assert BlockPath(g, q, a, c);
  }

  /** The blocks reachable from `from`, itself included. */
  method Forward(g: Graph, from: BlockId) returns (seen: set<BlockId>)
    ensures forall b :: b in seen <==> Connected(g, from, b)
  {
    seen := {};
    var stack := [from];
    ghost var universe := Universe(g, from);
    ConnectedHere(g, from);
    while stack != []
      invariant seen <= universe && forall b :: b in stack ==> b in universe
      invariant forall b :: b in seen || b in stack ==> Connected(g, from, b)
      invariant from in seen || from in stack
      invariant forall x, y :: x in seen && g.HasEdge(x, y) ==> y in seen || y in stack
      decreases |universe - seen|, |stack|
    {
      var node := stack[|stack| - 1];
      ghost var before := stack;
      stack := stack[..|stack| - 1];
      assert forall b :: b in before <==> b in stack || b == node;
      if node !in seen {
        ghost var left := universe - seen;
        seen := seen + {node};
        SmallerSet(universe - seen, left);
        TargetsInUniverse(g, from, node);
        forall c ensures c in Targets(g.edges, node) <==> g.HasEdge(node, c) {
          TargetsAre(g.edges, node, c);
        }
        forall c | c in Targets(g.edges, node) ensures Connected(g, from, c) {
          ConnectedNext(g, from, node, c);
        }
        stack := stack + Targets(g.edges, node);
      }
    }
    forall b | Connected(g, from, b) ensures b in seen {
      var p :| BlockPath(g, p, from, b);
      PathStaysIn(g, p, from, b, seen, {});
    }
  }

  /** The blocks from which `to` is reachable, itself included. */
  method Backward(g: Graph, to: BlockId) returns (seen: set<BlockId>)
    ensures forall b :: b in seen <==> Connected(g, b, to)
  {
    seen := {};
    var stack := [to];
    ghost var universe := Universe(g, to);
    ConnectedHere(g, to);
    while stack != []
      invariant seen <= universe && forall b :: b in stack ==> b in universe
      invariant forall b :: b in seen || b in stack ==> Connected(g, b, to)
      invariant to in seen || to in stack
      invariant forall x, y :: y in seen && g.HasEdge(x, y) ==> x in seen || x in stack
      decreases |universe - seen|, |stack|
    {
      var node := stack[|stack| - 1];
      ghost var before := stack;
      stack := stack[..|stack| - 1];
      assert forall b :: b in before <==> b in stack || b == node;
      if node !in seen {
        ghost var left := universe - seen;
        seen := seen + {node};
        SmallerSet(universe - seen, left);
        TargetsInUniverse(g, to, node);
        forall c ensures c in Sources(g.edges, node) <==> g.HasEdge(c, node) {
          SourcesAre(g.edges, node, c);
        }
        forall c | c in Sources(g.edges, node) ensures Connected(g, c, to) {
          ConnectedBefore(g, c, node, to);
        }
        stack := stack + Sources(g.edges, node);
      }
    }
    forall b | Connected(g, b, to) ensures b in seen {
      var p :| BlockPath(g, p, b, to);
      PathComesFrom(g, p, b, to, seen);
    }
  }

  /** A path into a set that is closed under predecessors starts in the set. */
  lemma {:induction false} PathComesFrom(g: Graph, p: seq<BlockId>, a: BlockId, b: BlockId, inside: set<BlockId>)
    requires BlockPath(g, p, a, b) && b in inside
    requires forall x, y :: y in inside && g.HasEdge(x, y) ==> x in inside
    ensures a in inside
    decreases |p|
  {
    if |p| > 1 {
      var n := |p| - 1;
      assert g.HasEdge(p[n - 1], p[n]);
      PathComesFrom(g, p[..n], a, p[n - 1], inside);
    }
  }

  method BlocksBetween(g: Graph, from: BlockId, to: BlockId) returns (between: set<BlockId>)
    ensures forall b :: b in between <==> exists p :: BlockPath(g, p, from, to) && b in p
  {
    var forward := Forward(g, from);
    var backward := Backward(g, to);
    between := forward * backward;
    forall b ensures b in between <==> exists p :: BlockPath(g, p, from, to) && b in p {
      if b in between {
        OnSomePath(g, from, b, to);
      }
      if exists p :: BlockPath(g, p, from, to) && b in p {
        var p :| BlockPath(g, p, from, to) && b in p;
        SplitPath(g, p, from, to, b);
      }
    }
  }

  lemma OnSomePath(g: Graph, a: BlockId, b: BlockId, c: BlockId)
    requires Connected(g, a, b) && Connected(g, b, c)
    ensures exists p :: BlockPath(g, p, a, c) && b in p
  {
    var p :| BlockPath(g, p, a, b);
    var q :| BlockPath(g, q, b, c);
    var r := p + q[1..];
    forall i | 0 <= i < |r| - 1 ensures g.HasEdge(r[i], r[i + 1]) {
      if i < |p| - 1 {
        assert g.HasEdge(p[i], p[i + 1]);
      } else {
        assert g.HasEdge(q[i - |p| + 1], q[i - |p| + 2]);
      }
    }
    assert r[|p| - 1] == b;
    assert BlockPath(g, r, a, c) && b in r;
  }

  lemma SplitPath(g: Graph, p: seq<BlockId>, a: BlockId, c: BlockId, b: BlockId)
    requires BlockPath(g, p, a, c) && b in p
    ensures Connected(g, a, b) && Connected(g, b, c)
  {
    var i :| 0 <= i < |p| && p[i] == b;
    assert BlockPath(g, p[..i + 1], a, b);
    var rest := p[i..];
    forall j | 0 <= j < |rest| - 1 ensures g.HasEdge(rest[j], rest[j + 1]) {
      assert g.HasEdge(p[i + j], p[i + j + 1]);
    }
    assert BlockPath(g, rest, b, c);
  }
}
