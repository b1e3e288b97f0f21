/** Numbering changes no run, apart from the numbers that its cleanups carry. */
module NumberingLaws {
  import opened ExceptionTypes
  import opened PascalSyntax
  import opened StructuredRuns
  import opened ScopeNumbering

  // ---- Statements without their numbers

  function Erase(s: Stmt): Stmt
    decreases s
  {
    match s
    case Block(b) => Block(EraseSeq(b))
    case IfElse(id, t, f) => IfElse(id, EraseSeq(t), EraseSeq(f))
    case IfOnly(id, t) => IfOnly(id, EraseSeq(t))
    case Loop(id, b) => Loop(id, EraseSeq(b))
    case Repeat(kw, cond, b) => Repeat(kw, cond, EraseSeq(b))
    case Case(id, arms, fallback) =>
      Case(id, EraseArms(arms), if fallback.Fallback? then Fallback(EraseSeq(fallback.body)) else NoFallback)
    case With(id, b) => With(id, EraseSeq(b))
    case TryFinally(_, b, c) => TryFinally(0, EraseSeq(b), EraseSeq(c))
    case TryExcept(b, hs) => TryExcept(EraseSeq(b), EraseHandlers(hs))
    case _ => s
  }

  function EraseSeq(ss: seq<Stmt>): (r: seq<Stmt>)
    ensures |r| == |ss|
    decreases ss
  {
    seq(|ss|, i requires 0 <= i < |ss| => Erase(ss[i]))
  }

  function EraseArms(arms: seq<Arm>): (r: seq<Arm>)
    ensures |r| == |arms|
    decreases arms
  {
    seq(|arms|, i requires 0 <= i < |arms| => Arm(EraseSeq(arms[i].body)))
  }

  function EraseHandlers(hs: seq<Handler>): (r: seq<Handler>)
    ensures |r| == |hs|
    decreases hs
  {
    seq(|hs|, i requires 0 <= i < |hs| => hs[i].(body := EraseSeq(hs[i].body)))
  }

  lemma {:induction false} NumberErased(s: Stmt, n: nat)
    ensures Erase(Number(s, n).tree) == Erase(s)
    decreases s, 1
  {
    hide NumberSeq, NumberArms, NumberHandlers, EraseSeq, EraseArms, EraseHandlers;
    match s
    case Block(b) => NumberSeqErased(b, n);
    case IfElse(_, t, f) => NumberSeqErased(t, n); NumberSeqErased(f, NumberSeq(t, n).next);
    case IfOnly(_, t) => NumberSeqErased(t, n);
    case Loop(_, b) => NumberSeqErased(b, n);
    case Repeat(_, _, b) => NumberSeqErased(b, n);
    case Case(_, arms, fallback) =>
      NumberArmsErased(arms, n);
      if fallback.Fallback? {
        NumberSeqErased(fallback.body, NumberArms(arms, n).next);
      }
    case With(_, b) => NumberSeqErased(b, n);
    case TryFinally(_, b, c) => NumberSeqErased(b, n + 1); NumberSeqErased(c, NumberSeq(b, n + 1).next);
    case TryExcept(b, hs) => NumberSeqErased(b, n); NumberHandlersErased(hs, NumberSeq(b, n).next);
    case _ =>
  }

  lemma {:induction false} NumberSeqErased(ss: seq<Stmt>, n: nat)
    ensures EraseSeq(NumberSeq(ss, n).tree) == EraseSeq(ss)
    decreases ss, 1
  {
    hide Erase, Number;
    if ss != [] {
      var front := ss[..|ss| - 1];
      var x := NumberSeq(front, n);
      var y := Number(ss[|ss| - 1], x.next);
      NumberSeqErased(front, n);
      NumberErased(ss[|ss| - 1], x.next);
      assert EraseSeq(ss) == EraseSeq(front) + [Erase(ss[|ss| - 1])];
      assert EraseSeq(x.tree + [y.tree]) == EraseSeq(x.tree) + [Erase(y.tree)];
    }
  }

  lemma {:induction false} NumberArmsErased(arms: seq<Arm>, n: nat)
    ensures EraseArms(NumberArms(arms, n).tree) == EraseArms(arms)
    decreases arms, 1
  {
    hide EraseSeq, NumberSeq;
    if arms != [] {
      var front := arms[..|arms| - 1];
      var x := NumberArms(front, n);
      var y := NumberSeq(arms[|arms| - 1].body, x.next);
      NumberArmsErased(front, n);
      NumberSeqErased(arms[|arms| - 1].body, x.next);
      assert EraseArms(arms) == EraseArms(front) + [Arm(EraseSeq(arms[|arms| - 1].body))];
      assert EraseArms(x.tree + [Arm(y.tree)]) == EraseArms(x.tree) + [Arm(EraseSeq(y.tree))];
    }
  }

  lemma {:induction false} NumberHandlersErased(hs: seq<Handler>, n: nat)
    ensures EraseHandlers(NumberHandlers(hs, n).tree) == EraseHandlers(hs)
    decreases hs, 1
  {
    hide EraseSeq, NumberSeq;
    if hs != [] {
      var front, h := hs[..|hs| - 1], hs[|hs| - 1];
      var x := NumberHandlers(front, n);
      var y := NumberSeq(h.body, x.next);
      var h' := h.(body := y.tree);
      NumberHandlersErased(front, n);
      NumberSeqErased(h.body, x.next);
      assert EraseHandlers(hs) == EraseHandlers(front) + [h.(body := EraseSeq(h.body))];
      assert EraseHandlers(x.tree + [h']) == EraseHandlers(x.tree) + [h'.(body := EraseSeq(h'.body))];
    }
  }

  // ---- Statements that differ in their numbers only

  predicate Alike(s: Stmt, t: Stmt) {
    Erase(s) == Erase(t)
  }

  predicate AlikeSeq(ss: seq<Stmt>, ts: seq<Stmt>) {
    EraseSeq(ss) == EraseSeq(ts)
  }

  lemma AlikeParts(ss: seq<Stmt>, ts: seq<Stmt>)
    requires AlikeSeq(ss, ts)
    ensures |ss| == |ts|
    ensures ss != [] ==> AlikeSeq(ss[..|ss| - 1], ts[..|ts| - 1]) && Alike(ss[|ss| - 1], ts[|ts| - 1])
  {
    hide Erase;
    if ss != [] {
      var n := |ss| - 1;
      assert EraseSeq(ss)[n] == Erase(ss[n]) && EraseSeq(ts)[n] == Erase(ts[n]);
      assert EraseSeq(ss[..n]) == EraseSeq(ss)[..n] && EraseSeq(ts[..n]) == EraseSeq(ts)[..n];
    }
  }

  lemma AlikeArm(a: seq<Arm>, b: seq<Arm>, i: nat)
    requires EraseArms(a) == EraseArms(b) && i < |a|
    ensures |a| == |b| && AlikeSeq(a[i].body, b[i].body)
  {
    hide EraseSeq;
    assert EraseArms(a)[i] == Arm(EraseSeq(a[i].body)) && EraseArms(b)[i] == Arm(EraseSeq(b[i].body));
  }

  lemma AlikeHandler(a: seq<Handler>, b: seq<Handler>, i: nat)
    requires EraseHandlers(a) == EraseHandlers(b) && i < |a|
    ensures |a| == |b| && AlikeSeq(a[i].body, b[i].body) && a[i].Typed? == b[i].Typed?
    ensures HandlerFact(a[i]) == HandlerFact(b[i])
  {
    hide EraseSeq;
    assert EraseHandlers(a)[i] == a[i].(body := EraseSeq(a[i].body));
    assert EraseHandlers(b)[i] == b[i].(body := EraseSeq(b[i].body));
  }

  /** Handlers match as before. */
  lemma AlikeMatches(index: TypeIndex, a: seq<Handler>, b: seq<Handler>, fact: Fact)
    requires EraseHandlers(a) == EraseHandlers(b)
    ensures |a| == |b| && Escapes(index, a, fact) == Escapes(index, b, fact)
    ensures forall i :: 0 <= i < |a| ==> MayCatch(index, a, fact, i) == MayCatch(index, b, fact, i)
  {
    forall i | 0 <= i < |a| ensures a[i].Typed? == b[i].Typed? && HandlerFact(a[i]) == HandlerFact(b[i]) {
      AlikeHandler(a, b, i);
    }
    hide MatchHandler, HandlerFact, EraseHandlers;
    if Escapes(index, a, fact) {
      forall h | h in b ensures h.Typed? && MatchHandler(index, fact, HandlerFact(h)) != Yes {
        var i :| 0 <= i < |b| && b[i] == h;
        assert a[i] in a;
      }
    }
    if Escapes(index, b, fact) {
      forall h | h in a ensures h.Typed? && MatchHandler(index, fact, HandlerFact(h)) != Yes {
        var i :| 0 <= i < |a| && a[i] == h;
        assert b[i] in b;
      }
    }
  }

  // ---- The predicted completions are the same

  lemma {:induction false} AlikeOuts(s: Stmt, t: Stmt, e: Env)
    requires Alike(s, t)
    ensures Completes(s) == Completes(t) && Outs(s, e) == Outs(t, e)
    decreases s, 1
  {
    hide EraseSeq, EraseArms, EraseHandlers, OutsSeq, CompletesSeq, OutsArms, OutsHandlers, Escapes;
    match s
    case Block(b) => AlikeSeqOuts(b, t.body, e);
    case IfElse(_, a, b) => AlikeSeqOuts(a, t.thenBody, e); AlikeSeqOuts(b, t.elseBody, e);
    case IfOnly(_, a) => AlikeSeqOuts(a, t.thenBody, e);
    case Loop(_, b) => AlikeSeqOuts(b, t.body, e.(inLoop := true));
    case Repeat(_, _, b) => AlikeSeqOuts(b, t.body, e.(inLoop := true));
    case Case(_, _, _) => CaseOuts(s, t, e);
    case With(_, b) => AlikeSeqOuts(b, t.body, e);
    case TryFinally(_, b, c) => AlikeSeqOuts(b, t.body, e); AlikeSeqOuts(c, t.cleanup, e);
    case TryExcept(_, _) => ExceptOuts(s, t, e);
    case _ =>
  }

  lemma {:induction false} CaseOuts(s: Stmt, t: Stmt, e: Env)
    requires s.Case? && Alike(s, t)
    ensures Completes(s) == Completes(t) && Outs(s, e) == Outs(t, e)
    decreases s, 0
  {
    hide EraseSeq, EraseArms, OutsSeq, CompletesSeq, OutsArms;
    AlikeArmsOuts(s.arms, t.arms, e);
    if s.fallback.Fallback? {
      AlikeSeqOuts(s.fallback.body, t.fallback.body, e);
    }
    forall i | 0 <= i < |s.arms| ensures CompletesSeq(s.arms[i].body) == CompletesSeq(t.arms[i].body) {
      AlikeArm(s.arms, t.arms, i);
      AlikeSeqOuts(s.arms[i].body, t.arms[i].body, e);
    }
  }

  lemma {:induction false} ExceptOuts(s: Stmt, t: Stmt, e: Env)
    requires s.TryExcept? && Alike(s, t)
    ensures Completes(s) == Completes(t) && Outs(s, e) == Outs(t, e)
    decreases s, 0
  {
    hide EraseSeq, EraseHandlers, OutsSeq, CompletesSeq, OutsHandlers, Escapes;
    AlikeSeqOuts(s.body, t.body, e);
    AlikeHandlersOuts(s.handlers, t.handlers, e, FactsOf(OutsSeq(s.body, e)));
    forall i | 0 <= i < |s.handlers| ensures CompletesSeq(s.handlers[i].body) == CompletesSeq(t.handlers[i].body) {
      AlikeHandler(s.handlers, t.handlers, i);
      AlikeSeqOuts(s.handlers[i].body, t.handlers[i].body, e);
    }
    forall fact: Fact ensures Escapes(e.index, s.handlers, fact) == Escapes(e.index, t.handlers, fact) {
      AlikeMatches(e.index, s.handlers, t.handlers, fact);
    }
    assert Completes(s) == Completes(t);
  }

  lemma {:induction false} AlikeSeqOuts(ss: seq<Stmt>, ts: seq<Stmt>, e: Env)
    requires AlikeSeq(ss, ts)
    ensures CompletesSeq(ss) == CompletesSeq(ts) && OutsSeq(ss, e) == OutsSeq(ts, e)
    decreases ss, 1
  {
    hide EraseSeq, Erase, Completes, Outs;
    AlikeParts(ss, ts);
    if ss != [] {
      AlikeSeqOuts(ss[..|ss| - 1], ts[..|ts| - 1], e);
      AlikeOuts(ss[|ss| - 1], ts[|ts| - 1], e);
    }
  }

  lemma {:induction false} AlikeArmsOuts(a: seq<Arm>, b: seq<Arm>, e: Env)
    requires EraseArms(a) == EraseArms(b)
    ensures OutsArms(a, e) == OutsArms(b, e)
    decreases a, 1
  {
    hide EraseSeq, OutsSeq;
    if a != [] {
      var n := |a| - 1;
      AlikeArm(a, b, n);
      assert EraseArms(a[..n]) == EraseArms(a)[..n] && EraseArms(b[..n]) == EraseArms(b)[..n];
      AlikeArmsOuts(a[..n], b[..n], e);
      AlikeSeqOuts(a[n].body, b[n].body, e);
    }
  }

  lemma {:induction false} AlikeHandlersOuts(a: seq<Handler>, b: seq<Handler>, e: Env, incoming: set<Fact>)
    requires EraseHandlers(a) == EraseHandlers(b)
    ensures OutsHandlers(a, e, incoming) == OutsHandlers(b, e, incoming)
    decreases a, 1
  {
    hide EraseSeq, OutsSeq;
    if a != [] {
      var n := |a| - 1;
      AlikeHandler(a, b, n);
      assert EraseHandlers(a[..n]) == EraseHandlers(a)[..n] && EraseHandlers(b[..n]) == EraseHandlers(b)[..n];
      AlikeHandlersOuts(a[..n], b[..n], e, incoming);
      AlikeSeqOuts(a[n].body, b[n].body, HandlerEnv(e, a[n], incoming));
    }
  }

  // ---- The runs are the same

  /** The same completion, and the same events but for the numbers. */
  ghost predicate SameRun(r: Run, q: Run) {
    Unnumbered(Events(r)) == Unnumbered(Events(q)) && r.out == q.out
  }

  lemma SameLeaf(r: Run)
    ensures SameRun(r, r)
  {}

  lemma SameNode(a: Run, b: Run, a': Run, b': Run, out: Outcome)
    requires SameRun(a, a') && SameRun(b, b')
    ensures SameRun(Node(a, b, out), Node(a', b', out))
  {
    hide Unnumbered;
    UnnumberedAppend(Events(a), Events(b));
    UnnumberedAppend(Events(a'), Events(b'));
  }

  lemma {:induction false} AlikeRun(s: Stmt, t: Stmt, e: Env, r: Run) returns (q: Run)
    requires Alike(s, t) && IsRun(s, e, r)
    ensures IsRun(t, e, q) && SameRun(r, q)
    decreases r, s, 1
  {
    hide IsRunSeq, EraseSeq, EraseArms, EraseHandlers, OutsSeq, Escapes, SameRun, Refs, Mark;
    SameLeaf(r);
    match s
    case Block(b) => q := AlikeSeqRun(b, t.body, e, r);
    case IfElse(_, a, b) =>
      q := r;
      if r.Node? {
        var x;
        if Headed(s.id, ConditionalTrue, r) && IsRunSeq(a, e, r.second) {
          x := AlikeSeqRun(a, t.thenBody, e, r.second);
        } else {
          x := AlikeSeqRun(b, t.elseBody, e, r.second);
        }
        q := HeadedSame(r, x);
      }
    case IfOnly(_, a) =>
      q := r;
      if r.Node? {
        var x := AlikeSeqRun(a, t.thenBody, e, r.second);
        q := HeadedSame(r, x);
      }
    case Loop(_, _) => q := LoopsRun(s, t, e, r);
    case Repeat(_, _, _) => q := LoopsRun(s, t, e, r);
    case Case(_, _, _) => q := CaseRun(s, t, e, r);
    case With(_, b) =>
      q := r;
      if r.Node? {
        var x := AlikeSeqRun(b, t.body, e, r.second);
        q := HeadedSame(r, x);
      }
    case TryFinally(_, b, c) => q := FinallySame(s, t, e, r);
    case TryExcept(_, _) => q := ExceptRun(s, t, e, r);
    case _ => q := r;
  }

  lemma HeadedSame(r: Run, x: Run) returns (q: Run)
    requires r.Node? && SameRun(r.second, x)
    ensures q == Node(r.first, x, r.out) && SameRun(r, q) && x.out == r.second.out
  {
    q := Node(r.first, x, r.out);
    SameLeaf(r.first);
    SameNode(r.first, r.second, r.first, x, r.out);
  }

  lemma {:induction false} FinallySame(s: Stmt, t: Stmt, e: Env, r: Run) returns (q: Run)
    requires s.TryFinally? && Alike(s, t) && IsRun(s, e, r)
    ensures IsRun(t, e, q) && SameRun(r, q)
    decreases r, s, 0
  {
    hide IsRunSeq, EraseSeq, Refs, Mark, SameRun;
    var a := AlikeSeqRun(s.body, t.body, e, r.first);
    var c := AlikeSeqRun(s.cleanup, t.cleanup, e, r.second.second);
    OutSame(r.first, a);
    OutSame(r.second.second, c);
    EntrySame(s.scope, t.scope, a.out);
    var mark := Leaf(Entered(t.scope, a.out), Normal);
    q := Node(a, Node(mark, c, c.out), r.out);
    SameNode(r.second.first, r.second.second, mark, c, c.out);
    SameNode(r.first, r.second, a, q.second, r.out);
  }

  lemma EntrySame(f: ScopeId, g: ScopeId, o: Outcome)
    ensures SameRun(Leaf(Entered(f, o), Normal), Leaf(Entered(g, o), Normal))
  {
    assert Unnumbered(Entered(f, o)) == Unnumbered(Entered(g, o));
  }

  lemma {:induction false} LoopsRun(s: Stmt, t: Stmt, e: Env, r: Run) returns (q: Run)
    requires (s.Loop? || s.Repeat?) && Alike(s, t) && IsRun(s, e, r)
    ensures IsRun(t, e, q) && SameRun(r, q)
    decreases r, s, 0
  {
    hide IsRunSeq, EraseSeq, SameRun, Refs, Mark;
    SameLeaf(r);
    SameLeaf(Done);
    q := r;
    if r.Node? && s.Loop? {
      var x := AlikeSeqRun(s.body, t.body, e.(inLoop := true), r.first.second);
      var turn := HeadedSame(r.first, x);
      var rest := r.second;
      SameLeaf(rest);
      if r.first.out in {Normal, Continued} {
        var again := AlikeRun(s, t, e, r.second.second);
        rest := HeadedSame(r.second, again);
      }
      q := Node(turn, rest, r.out);
      OutSame(r.second, rest);
      SameNode(r.first, r.second, turn, rest, r.out);
    } else if r.Node? {
      var x := AlikeSeqRun(s.body, t.body, e.(inLoop := true), r.first);
      var rest := r.second;
      SameLeaf(rest);
      if r.first.out in {Normal, Continued} && r.second.Node? {
        var again := AlikeRun(s, t, e, r.second.second);
        rest := HeadedSame(r.second, again);
      }
      q := Node(x, rest, r.out);
      OutSame(r.first, x);
      OutSame(r.second, rest);
      SameNode(r.first, r.second, x, rest, r.out);
    }
  }

  lemma OutSame(r: Run, q: Run)
    requires SameRun(r, q)
    ensures r.out == q.out
  {}

  lemma {:induction false} CaseRun(s: Stmt, t: Stmt, e: Env, r: Run) returns (q: Run)
    requires s.Case? && Alike(s, t) && IsRun(s, e, r)
    ensures IsRun(t, e, q) && SameRun(r, q)
    decreases r, s, 0
  {
    hide IsRunSeq, EraseSeq, EraseArms, SameRun, Refs, Mark;
    SameLeaf(r);
    q := r;
    if r.Node? {
      var x;
      if s.fallback.Fallback? && IsRunSeq(s.fallback.body, e, r.second) {
        x := AlikeSeqRun(s.fallback.body, t.fallback.body, e, r.second);
      } else {
        var i :| 0 <= i < |s.arms| && IsRunSeq(s.arms[i].body, e, r.second);
        AlikeArm(s.arms, t.arms, i);
        x := AlikeSeqRun(s.arms[i].body, t.arms[i].body, e, r.second);
        assert IsRunSeq(t.arms[i].body, e, x);
      }
      q := HeadedSame(r, x);
    }
  }

  lemma {:induction false} ExceptRun(s: Stmt, t: Stmt, e: Env, r: Run) returns (q: Run)
    requires s.TryExcept? && Alike(s, t) && IsRun(s, e, r)
    ensures IsRun(t, e, q) && SameRun(r, q)
    decreases r, s, 0
  {
    hide IsRunSeq, EraseSeq, EraseHandlers, SameRun, Escapes, MayCatch, OutsSeq, Mark;
    var a := AlikeSeqRun(s.body, t.body, e, r.first);
    OutSame(r.first, a);
    AlikeSeqOuts(s.body, t.body, e);
    var rest := r.second;
    SameLeaf(rest);
    if r.first.out.Raised? {
      AlikeMatches(e.index, s.handlers, t.handlers, r.first.out.fact);
      if !(s.handlers == [] && r.second == Leaf(Mark(ExceptionThrow), Normal) && r.out == Normal)
         && !(Escapes(e.index, s.handlers, r.first.out.fact) && r.second == Done && r.out == r.first.out) {
        var b := HandledRun(s, t, e, r.first.out.fact, r.second.second);
        rest := HeadedSame(r.second, b);
      }
    }
    q := Node(a, rest, r.out);
    SameNode(r.first, r.second, a, rest, r.out);
  }

  /** The run of the handler that caught. */
  lemma {:induction false} HandledRun(s: Stmt, t: Stmt, e: Env, fact: Fact, b: Run) returns (q: Run)
    requires s.TryExcept? && Alike(s, t) && OutsSeq(s.body, e) == OutsSeq(t.body, e)
    requires exists i ::
               && 0 <= i < |s.handlers|
               && MayCatch(e.index, s.handlers, fact, i)
               && IsRunSeq(s.handlers[i].body, HandlerEnv(e, s.handlers[i], FactsOf(OutsSeq(s.body, e))), b)
    ensures SameRun(b, q)
    ensures exists i ::
              && 0 <= i < |t.handlers|
              && MayCatch(e.index, t.handlers, fact, i)
              && IsRunSeq(t.handlers[i].body, HandlerEnv(e, t.handlers[i], FactsOf(OutsSeq(t.body, e))), q)
    decreases b, s, 2
  {
    hide IsRunSeq, EraseSeq, EraseHandlers, SameRun, MayCatch, OutsSeq;
    var incoming := FactsOf(OutsSeq(s.body, e));
    var i :| 0 <= i < |s.handlers| && MayCatch(e.index, s.handlers, fact, i)
      && IsRunSeq(s.handlers[i].body, HandlerEnv(e, s.handlers[i], incoming), b);
    AlikeMatches(e.index, s.handlers, t.handlers, fact);
    AlikeHandler(s.handlers, t.handlers, i);
    assert HandlerEnv(e, s.handlers[i], incoming) == HandlerEnv(e, t.handlers[i], incoming);
    q := AlikeSeqRun(s.handlers[i].body, t.handlers[i].body, HandlerEnv(e, s.handlers[i], incoming), b);
    assert IsRunSeq(t.handlers[i].body, HandlerEnv(e, t.handlers[i], incoming), q);
  }

  lemma {:induction false} AlikeSeqRun(ss: seq<Stmt>, ts: seq<Stmt>, e: Env, r: Run) returns (q: Run)
    requires AlikeSeq(ss, ts) && IsRunSeq(ss, e, r)
    ensures IsRunSeq(ts, e, q) && SameRun(r, q)
    decreases r, ss, 1
  {
    hide EraseSeq, Erase, IsRun, SameRun;
    AlikeParts(ss, ts);
    SameLeaf(r);
    q := r;
    if ss != [] {
      var a := AlikeSeqRun(ss[..|ss| - 1], ts[..|ts| - 1], e, r.first);
      var b := r.second;
      OutSame(r.first, a);
      SameLeaf(b);
      if r.first.out.Normal? {
        b := AlikeRun(ss[|ss| - 1], ts[|ts| - 1], e, r.second);
      }
      OutSame(r.second, b);
      q := Node(a, b, r.out);
      SameNode(r.first, r.second, a, b, r.out);
    }
  }
}
