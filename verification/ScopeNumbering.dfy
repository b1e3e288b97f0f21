/** The prepass that gives every `try..finally` of a routine its own identity. */
module ScopeNumbering {
  import opened PascalSyntax
  import opened ScopePlacement

  datatype Numbered<T> = Numbered(tree: T, next: nat)

  /** Identities are given in source order; a statement comes before what it encloses. */
  function Number(s: Stmt, n: nat): Numbered<Stmt> {
    match s
    case Block(b) => var x := NumberSeq(b, n); Numbered(Block(x.tree), x.next)
    case IfElse(id, t, f) =>
      var x := NumberSeq(t, n);
      var y := NumberSeq(f, x.next);
      Numbered(IfElse(id, x.tree, y.tree), y.next)
    case IfOnly(id, t) => var x := NumberSeq(t, n); Numbered(IfOnly(id, x.tree), x.next)
    case Loop(id, b) => var x := NumberSeq(b, n); Numbered(Loop(id, x.tree), x.next)
    case Repeat(kw, cond, b) => var x := NumberSeq(b, n); Numbered(Repeat(kw, cond, x.tree), x.next)
    case Case(id, arms, fallback) =>
      var x := NumberArms(arms, n);
      if fallback.Fallback? then
        var y := NumberSeq(fallback.body, x.next);
        Numbered(Case(id, x.tree, Fallback(y.tree)), y.next)
      else Numbered(Case(id, x.tree, NoFallback), x.next)
    case With(id, b) => var x := NumberSeq(b, n); Numbered(With(id, x.tree), x.next)
    case TryFinally(_, b, c) =>
      var x := NumberSeq(b, n + 1);
      var y := NumberSeq(c, x.next);
      Numbered(TryFinally(n, x.tree, y.tree), y.next)
    case TryExcept(b, hs) =>
      var x := NumberSeq(b, n);
      var y := NumberHandlers(hs, x.next);
      Numbered(TryExcept(x.tree, y.tree), y.next)
    case _ => Numbered(s, n)
  }

  function NumberSeq(ss: seq<Stmt>, n: nat): Numbered<seq<Stmt>> {
    if ss == [] then Numbered([], n)
    else
      var x := NumberSeq(ss[..|ss| - 1], n);
      var y := Number(ss[|ss| - 1], x.next);
      Numbered(x.tree + [y.tree], y.next)
  }

  function NumberArms(arms: seq<Arm>, n: nat): Numbered<seq<Arm>> {
    if arms == [] then Numbered([], n)
    else
      var x := NumberArms(arms[..|arms| - 1], n);
      var y := NumberSeq(arms[|arms| - 1].body, x.next);
      Numbered(x.tree + [Arm(y.tree)], y.next)
  }

  function NumberHandlers(hs: seq<Handler>, n: nat): Numbered<seq<Handler>> {
    if hs == [] then Numbered([], n)
    else
      var h := hs[|hs| - 1];
      var x := NumberHandlers(hs[..|hs| - 1], n);
      var y := NumberSeq(h.body, x.next);
      Numbered(x.tree + [h.(body := y.tree)], y.next)
  }

  // ---- Identities are distinct

  ghost predicate Within(scopes: set<ScopeId>, n: nat, m: nat) {
    n <= m && forall f :: f in scopes ==> n <= f < m
  }

  lemma {:induction false} NumberDistinct(s: Stmt, n: nat)
    ensures Distinct(Number(s, n).tree) && Within(ScopesIn(Number(s, n).tree), n, Number(s, n).next)
    decreases s
  {
    hide NumberSeq, NumberArms, NumberHandlers, DistinctSeq, DistinctArms, DistinctHandlers, ScopesInSeq;
    hide ScopesInArms, ScopesInHandlers;
    match s
    case Block(b) => NumberSeqDistinct(b, n);
    case IfElse(_, t, f) => NumberSeqDistinct(t, n); NumberSeqDistinct(f, NumberSeq(t, n).next);
    case IfOnly(_, t) => NumberSeqDistinct(t, n);
    case Loop(_, b) => NumberSeqDistinct(b, n);
    case Repeat(_, _, b) => NumberSeqDistinct(b, n);
    case Case(_, arms, fallback) =>
      NumberArmsDistinct(arms, n);
      if fallback.Fallback? {
        NumberSeqDistinct(fallback.body, NumberArms(arms, n).next);
      }
    case With(_, b) => NumberSeqDistinct(b, n);
    case TryFinally(_, b, c) => NumberSeqDistinct(b, n + 1); NumberSeqDistinct(c, NumberSeq(b, n + 1).next);
    case TryExcept(b, hs) => NumberSeqDistinct(b, n); NumberHandlersDistinct(hs, NumberSeq(b, n).next);
    case _ =>
  }

  lemma {:induction false} NumberSeqDistinct(ss: seq<Stmt>, n: nat)
    ensures DistinctSeq(NumberSeq(ss, n).tree) && Within(ScopesInSeq(NumberSeq(ss, n).tree), n, NumberSeq(ss, n).next)
    decreases ss
  {
    if ss != [] {
      var x := NumberSeq(ss[..|ss| - 1], n);
      var all := NumberSeq(ss, n).tree;
      NumberSeqDistinct(ss[..|ss| - 1], n);
      NumberDistinct(ss[|ss| - 1], x.next);
      assert all[..|all| - 1] == x.tree;
    }
  }

  lemma {:induction false} NumberArmsDistinct(arms: seq<Arm>, n: nat)
    ensures DistinctArms(NumberArms(arms, n).tree)
    ensures Within(ScopesInArms(NumberArms(arms, n).tree), n, NumberArms(arms, n).next)
    decreases arms
  {
    if arms != [] {
      var x := NumberArms(arms[..|arms| - 1], n);
      var all := NumberArms(arms, n).tree;
      NumberArmsDistinct(arms[..|arms| - 1], n);
      NumberSeqDistinct(arms[|arms| - 1].body, x.next);
      assert all[..|all| - 1] == x.tree;
    }
  }

  lemma {:induction false} NumberHandlersDistinct(hs: seq<Handler>, n: nat)
    ensures DistinctHandlers(NumberHandlers(hs, n).tree)
    ensures Within(ScopesInHandlers(NumberHandlers(hs, n).tree), n, NumberHandlers(hs, n).next)
    decreases hs
  {
    if hs != [] {
      var x := NumberHandlers(hs[..|hs| - 1], n);
      var all := NumberHandlers(hs, n).tree;
      NumberHandlersDistinct(hs[..|hs| - 1], n);
      NumberSeqDistinct(hs[|hs| - 1].body, x.next);
      assert all[..|all| - 1] == x.tree;
    }
  }
}
