/** Procedure summaries over a call graph: one pass in dependency order, or rounds until nothing changes. */
module SummaryComputation {
  import opened PascalSyntax

  type ProcId = nat

  datatype Summary = Summary(id: ProcId, effects: seq<int>)

  type Summaries = map<ProcId, Summary>

  /** The analysis of one procedure's own graph, given what is known of its callees. */
  type Analyzer = (ProcId, Summaries) -> Summary

  const MAX_ROUNDS: nat := 20

  /** What the call graph knows about the callees of a procedure. */
  function CalleeSummaries(callees: map<ProcId, set<ProcId>>, summaries: Summaries, p: ProcId): (known: Summaries)
    ensures known.Keys == summaries.Keys * (if p in callees then callees[p] else {})
    ensures forall c :: c in known ==> known[c] == summaries[c]
  {
    map c | c in summaries && p in callees && c in callees[p] :: summaries[c]
  }

  ghost predicate OwnIds(analyze: Analyzer, procs: set<ProcId>) {
    forall p, known :: p in procs ==> analyze(p, known).id == p
  }

  ghost predicate Solves(callees: map<ProcId, set<ProcId>>, analyze: Analyzer, summaries: Summaries, p: ProcId) {
    p in summaries && summaries[p] == analyze(p, CalleeSummaries(callees, summaries, p))
  }

  /** Every procedure with a graph has the summary that its callees' summaries imply; the rest is as before. */
  ghost predicate Solution(
    callees: map<ProcId, set<ProcId>>, analyze: Analyzer, procs: set<ProcId>, before: Summaries, summaries: Summaries)
  {
    && (forall p :: p in procs ==> Solves(callees, analyze, summaries, p))
    && summaries.Keys == before.Keys + procs
    && (forall p :: p in before && p !in procs ==> summaries[p] == before[p])
  }

  /** Callers come before their callees, and every procedure with a graph is listed once. */
  ghost predicate Topological(callees: map<ProcId, set<ProcId>>, procs: set<ProcId>, order: seq<ProcId>) {
    && (forall p :: p in procs ==> p in order)
    && (forall i, j :: 0 <= i < j < |order| ==> order[i] != order[j])
    && (forall i, j :: 0 <= i < |order| && 0 <= j < |order| && Calls(callees, order[i], order[j]) ==> i < j)
  }

  predicate Calls(callees: map<ProcId, set<ProcId>>, p: ProcId, c: ProcId) {
    p in callees && c in callees[p]
  }

  // ---- Dependency order

  /** A summary that is not a callee's does not matter. */
  lemma SameCallees(callees: map<ProcId, set<ProcId>>, summaries: Summaries, p: ProcId, q: ProcId, s: Summary)
    requires !Calls(callees, p, q)
    ensures CalleeSummaries(callees, summaries[q := s], p) == CalleeSummaries(callees, summaries, p)
  {}

  lemma StillSolves(
    callees: map<ProcId, set<ProcId>>, analyze: Analyzer, summaries: Summaries, p: ProcId, q: ProcId, s: Summary)
    requires Solves(callees, analyze, summaries, p) && p != q && !Calls(callees, p, q)
    ensures Solves(callees, analyze, summaries[q := s], p)
  {
    SameCallees(callees, summaries, p, q, s);
  }

  /** Two solutions that agree on all later procedures agree on the callees of this one. */
  lemma CalleesAgree(
    callees: map<ProcId, set<ProcId>>, analyze: Analyzer, procs: set<ProcId>, before: Summaries, order: seq<ProcId>,
    a: Summaries, b: Summaries, i: nat)
    requires Topological(callees, procs, order) && i < |order|
    requires Solution(callees, analyze, procs, before, a) && Solution(callees, analyze, procs, before, b)
    requires forall j :: i < j < |order| && order[j] in a ==> a[order[j]] == b[order[j]]
    ensures CalleeSummaries(callees, a, order[i]) == CalleeSummaries(callees, b, order[i])
  {
    hide Solves;
    forall c | c in a && Calls(callees, order[i], c) ensures a[c] == b[c] {
      if c in procs {
        var j :| 0 <= j < |order| && order[j] == c;
        assert Calls(callees, order[i], order[j]);
      }
    }
  }

  /** Two solutions agree on everything from position `i` on. */
  lemma {:induction false} SolutionsAgree(
    callees: map<ProcId, set<ProcId>>, analyze: Analyzer, procs: set<ProcId>, before: Summaries, order: seq<ProcId>,
    a: Summaries, b: Summaries, i: nat)
    requires Topological(callees, procs, order)
    requires Solution(callees, analyze, procs, before, a) && Solution(callees, analyze, procs, before, b)
    requires i <= |order|
    ensures forall j :: i <= j < |order| && order[j] in a ==> a[order[j]] == b[order[j]]
    decreases |order| - i
  {
    hide Topological, CalleeSummaries;
    if i < |order| {
      SolutionsAgree(callees, analyze, procs, before, order, a, b, i + 1);
      CalleesAgree(callees, analyze, procs, before, order, a, b, i);
      assert order[i] in procs ==> Solves(callees, analyze, a, order[i]) && Solves(callees, analyze, b, order[i]);
    }
  }

  /** On an acyclic call graph the equations have one solution. */
  lemma UniqueSolution(
    callees: map<ProcId, set<ProcId>>, analyze: Analyzer, procs: set<ProcId>, before: Summaries, order: seq<ProcId>,
    a: Summaries, b: Summaries)
    requires Topological(callees, procs, order)
    requires Solution(callees, analyze, procs, before, a) && Solution(callees, analyze, procs, before, b)
    ensures a == b
  {
    SolutionsAgree(callees, analyze, procs, before, order, a, b, 0);
    forall p | p in a ensures a[p] == b[p] {
      if p in procs {
        var j :| 0 <= j < |order| && order[j] == p;
      }
    }
  }

  /** On a cyclic call graph there may be no solution at all, so rounds need not settle. */
  lemma NoSolution()
    ensures var callees := map[0 := {0}];
            var flips := (p: ProcId, known: Summaries) =>
                Summary(p, if 0 in known && known[0].effects == [] then [1] else []);
            OwnIds(flips, {0}) && forall s :: !Solution(callees, flips, {0}, map[], s)
  {
    var callees: map<ProcId, set<ProcId>> := map[0 := {0}];
    var flips := (p: ProcId, known: Summaries) => Summary(p, if 0 in known && known[0].effects == [] then [1] else []);
    forall s ensures !Solution(callees, flips, {0}, map[], s) {
      assert 0 in s ==> CalleeSummaries(callees, s, 0)[0] == s[0];
    }
  }

  // ---- Rounds

  /** One round: each procedure in turn gets the summary that the present ones imply. */
  function Rounded(
    callees: map<ProcId, set<ProcId>>, analyze: Analyzer, summaries: Summaries, ids: seq<ProcId>): Summaries
    decreases |ids|
  {
    if ids == [] then summaries
    else
      var n := |ids| - 1;
      var before := Rounded(callees, analyze, summaries, ids[..n]);
      before[ids[n] := analyze(ids[n], CalleeSummaries(callees, before, ids[n]))]
  }

  function Rounds(
    callees: map<ProcId, set<ProcId>>, analyze: Analyzer, summaries: Summaries, ids: seq<ProcId>, n: nat): Summaries
  {
    if n == 0 then summaries
    else Rounded(callees, analyze, Rounds(callees, analyze, summaries, ids, n - 1), ids)
  }

  class CallGraph {
    const callees: map<ProcId, set<ProcId>>
    var summaries: Summaries

    constructor (callees: map<ProcId, set<ProcId>>, summaries: Summaries)
      ensures this.callees == callees && this.summaries == summaries
    {
      this.callees, this.summaries := callees, summaries;
    }

    /** Analyse one procedure and store the result under the identity that it carries. */
    method Analyze(p: ProcId, analyze: Analyzer)
      modifies this
      ensures summaries == var s := analyze(p, CalleeSummaries(callees, old(summaries), p)); old(summaries)[s.id := s]
    {
      var summary := analyze(p, CalleeSummaries(callees, summaries, p));
      summaries := summaries[summary.id := summary];
    }

    /** One pass, callees first. */
    method ComputeInOrder(order: seq<ProcId>, procs: set<ProcId>, analyze: Analyzer)
      requires Topological(callees, procs, order) && OwnIds(analyze, procs)
      modifies this
      ensures Solution(callees, analyze, procs, old(summaries), summaries)
    {
      hide CalleeSummaries;
      ghost var before := summaries;
      var i := |order|;
      while i > 0
        invariant 0 <= i <= |order|
        invariant forall j :: i <= j < |order| && order[j] in procs ==> Solves(callees, analyze, summaries, order[j])
        invariant summaries.Keys == before.Keys + set j | i <= j < |order| && order[j] in procs :: order[j]
        invariant forall p :: p in before && p !in procs ==> summaries[p] == before[p]
      {
        i := i - 1;
        var p := order[i];
        if p in procs {
          ghost var old_summaries := summaries;
          Analyze(p, analyze);
          assert !Calls(callees, p, p);
          SameCallees(callees, old_summaries, p, p, summaries[p]);
          forall j | i < j < |order| && order[j] in procs ensures Solves(callees, analyze, summaries, order[j]) {
            StillSolves(callees, analyze, old_summaries, order[j], p, summaries[p]);
          }
        }
      }
      forall p | p in procs ensures Solves(callees, analyze, summaries, p) {
        var j :| 0 <= j < |order| && order[j] == p;
      }
    }

    /** One round over all procedures; was anything different? */
    method Round(ids: seq<ProcId>, procs: set<ProcId>, analyze: Analyzer) returns (changed: bool)
      requires OwnIds(analyze, procs) && forall p :: p in ids <==> p in procs
      modifies this
      ensures summaries.Keys == old(summaries).Keys + procs
      ensures forall p :: p in old(summaries) && p !in procs ==> summaries[p] == old(summaries)[p]
      ensures summaries == Rounded(callees, analyze, old(summaries), ids)
      ensures !changed ==> summaries == old(summaries) && forall p :: p in procs ==>
              Solves(callees, analyze, summaries, p)
    {
      hide CalleeSummaries;
      ghost var before := summaries;
      changed := false;
      var i := 0;
      while i < |ids|
        invariant 0 <= i <= |ids| && summaries == Rounded(callees, analyze, before, ids[..i])
        invariant summaries.Keys == before.Keys + set j | 0 <= j < i :: ids[j]
        invariant forall p :: p in before && p !in procs ==> summaries[p] == before[p]
        invariant !changed ==> summaries == before && forall j :: 0 <= j < i ==>
                  Solves(callees, analyze, summaries, ids[j])
      {
        var p := ids[i];
        assert p in procs;
        assert ids[..i + 1][..i] == ids[..i] && ids[..i + 1][i] == p;
        var summary := analyze(p, CalleeSummaries(callees, summaries, p));
        if p !in summaries || summaries[p] != summary {
          changed := true;
          summaries := summaries[summary.id := summary];
        }
        i := i + 1;
      }
      assert ids[..i] == ids;
      assert (set j | 0 <= j < |ids| :: ids[j]) == procs by {
        forall p | p in procs ensures p in (set j | 0 <= j < |ids| :: ids[j]) {
          var j :| 0 <= j < |ids| && ids[j] == p;
        }
      }
    }

    /** Rounds until one changes nothing, but not more than the limit. */
    method ComputeInRounds(ids: seq<ProcId>, procs: set<ProcId>, analyze: Analyzer) returns (settled: bool)
      requires OwnIds(analyze, procs) && forall p :: p in ids <==> p in procs
      modifies this
      ensures summaries.Keys == old(summaries).Keys + procs
      ensures forall p :: p in old(summaries) && p !in procs ==> p in summaries && summaries[p] == old(summaries)[p]
      ensures if settled then Solution(callees, analyze, procs, old(summaries), summaries)
              else summaries == Rounds(callees, analyze, old(summaries), ids, MAX_ROUNDS)
    {
      hide Rounded;
      ghost var before := summaries;
      settled := false;
      var round := 0;
      while round < MAX_ROUNDS
        invariant round <= MAX_ROUNDS && !settled && summaries == Rounds(callees, analyze, before, ids, round)
        invariant summaries.Keys == before.Keys + if round == 0 then {} else procs
        invariant forall p :: p in before && p !in procs ==> summaries[p] == before[p]
      {
        var changed := Round(ids, procs, analyze);
        if !changed {
          settled := true;
          break;
        }
        round := round + 1;
      }
    }

    /** The whole computation; `order` is absent when the call graph has a cycle. */
    method Compute(order: Option<seq<ProcId>>, ids: seq<ProcId>, procs: set<ProcId>, analyze: Analyzer)
      returns (settled: bool)
      requires OwnIds(analyze, procs) && forall p :: p in ids <==> p in procs
      requires order.Some? ==> Topological(callees, procs, order.value)
      modifies this
      ensures order.Some? ==> settled
      ensures if settled then Solution(callees, analyze, procs, old(summaries), summaries)
              else summaries == Rounds(callees, analyze, old(summaries), ids, MAX_ROUNDS)
    {
      if order.Some? {
        ComputeInOrder(order.value, procs, analyze);
        settled := true;
      } else {
        settled := ComputeInRounds(ids, procs, analyze);
      }
    }
  }
}
