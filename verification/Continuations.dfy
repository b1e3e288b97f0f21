/**
  What may still happen after a point in the program: sets of remaining traces.

  A continuation gives, for each way of completing, the traces that can follow. The future of
  a statement is then the set of its run traces, each followed by a matching continuation.
  */
module Continuations {
  import opened ExceptionTypes
  import opened PascalSyntax
  import opened StructuredRuns

  type Future = iset<Trace>
  type Kont = Outcome -> Future

  /** Every trace of `after`, with `events` put in front, is a trace of `before`. */
  ghost predicate Feeds(events: Trace, after: Future, before: Future) {
    forall t :: t in after ==> events + t in before
  }

  ghost function After(s: Stmt, e: Env, k: Kont): Future {
    iset r: Run, t: Trace | IsRun(s, e, r) && t in k(r.out) :: Events(r) + t
  }

  ghost function AfterSeq(ss: seq<Stmt>, e: Env, k: Kont): Future {
    iset r: Run, t: Trace | IsRunSeq(ss, e, r) && t in k(r.out) :: Events(r) + t
  }

  // ---- The continuations that the constructs install for their parts

  ghost function WithNormal(k: Kont, next: Future): Kont {
    (o: Outcome) => if o.Normal? then next else k(o)
  }

  /** The traces behind some events. */
  ghost function Behind(events: Trace, after: Future): Future {
    iset t | t in after :: events + t
  }

  /** The end of a body goes back, a Continue to the head, and a Break out of the loop. */
  ghost function InLoop(k: Kont, back: Future, head: Future): Kont {
    (o: Outcome) => if o.Normal? then back else if o.Continued? then head else if o.Broke? then k(Normal) else k(o)
  }

  /** A finalizer that completes normally resumes `pending`. */
  ghost function Resume(k: Kont, pending: Outcome): Kont {
    (o: Outcome) => if o.Normal? then k(pending) else k(o)
  }

  /** The cleanup of `f`, entered with `o` pending. */
  ghost function Finalized(f: ScopeId, o: Outcome, cleanup: seq<Stmt>, e: Env, k: Kont): Future {
    iset t | t in AfterSeq(cleanup, e, Resume(k, o)) :: [Cleanup(f, o)] + t
  }

  /** Into the cleanup, the way that fits the completion. */
  ghost function Cleaned(f: ScopeId, o: Outcome, cleanup: seq<Stmt>, e: Env, k: Kont): Future {
    Behind(Mark(EntryKind(o)), Finalized(f, o, cleanup, e, k))
  }

  ghost function ThroughFinally(f: ScopeId, cleanup: seq<Stmt>, e: Env, k: Kont): Kont {
    (o: Outcome) => Cleaned(f, o, cleanup, e, k)
  }

  /** Thrown to the handlers that may receive a fact. */
  ghost function Caught(hs: seq<Handler>, e: Env, incoming: set<Fact>, k: Kont, raised: Fact): Future {
    iset i: nat, t: Trace | i < |hs| && MayCatch(e.index, hs, raised, i)
      && t in AfterSeq(hs[i].body, HandlerEnv(e, hs[i], incoming), k) :: Mark(ExceptionThrow) + t
  }

  ghost function ThroughExcept(hs: seq<Handler>, e: Env, incoming: set<Fact>, k: Kont): Kont {
    (o: Outcome) =>
      if !o.Raised? then k(o)
      else
        Caught(hs, e, incoming, k, o.fact)
        + (if Escapes(e.index, hs, o.fact) then k(o) else iset{})
        + (if hs == [] then Behind(Mark(ExceptionThrow), k(Normal)) else iset{})
  }

  ghost function RepeatCondition(s: Stmt, e: Env, k: Kont): Future
    requires s.Repeat?
  {
    Behind(Refs([s.keyword, s.condition]),
           Behind(Mark(LoopExit), k(Normal)) + k(Implicit) + Behind(Mark(LoopBack), After(s, e, k)))
  }

  /** What may follow at the head of a loop. */
  ghost function HeadFuture(s: Stmt, e: Env, k: Kont): Future {
    if s.Repeat? then RepeatCondition(s, e, k) else After(s, e, k)
  }

  /** What may follow the end of a loop body. */
  ghost function BackFuture(s: Stmt, e: Env, k: Kont): Future {
    if s.Repeat? then RepeatCondition(s, e, k) else Behind(Mark(LoopBack), After(s, e, k))
  }

  /** How the body of a loop goes on. */
  ghost function TurnKont(s: Stmt, e: Env, k: Kont): Kont {
    InLoop(k, BackFuture(s, e, k), HeadFuture(s, e, k))
  }

  lemma TurnCases(s: Stmt, e: Env, k: Kont)
    ensures TurnKont(s, e, k)(Normal) == BackFuture(s, e, k) && TurnKont(s, e, k)(Continued) == HeadFuture(s, e, k)
    ensures TurnKont(s, e, k)(Broke) == k(Normal)
    ensures forall o: Outcome :: !o.Normal? && !o.Broke? && !o.Continued? ==> TurnKont(s, e, k)(o) == k(o)
  {}

  /** What may follow at the start of the body of a loop. */
  ghost function TurnFuture(s: Stmt, e: Env, k: Kont): Future
    requires s.Loop? || s.Repeat?
  {
    AfterSeq(s.body, e.(inLoop := true), TurnKont(s, e, k))
  }

  /** However the body completes, the routine is over; exceptions are thrown out of it. */
  ghost function AtBoundary(): Kont {
    (o: Outcome) => iset{LeaveMark(o)}
  }

  // ---- Basic facts

  lemma FeedsTrans(p: Trace, q: Trace, a: Future, b: Future, c: Future)
    requires Feeds(p, b, c) && Feeds(q, a, b)
    ensures Feeds(p + q, a, c)
  {
    forall t | t in a ensures p + q + t in c {
      assert p + q + t == p + (q + t);
    }
  }

  lemma FeedsSelf(a: Future, b: Future)
    requires a <= b
    ensures Feeds([], a, b)
  {
    forall t | t in a ensures [] + t in b {
      assert [] + t == t;
    }
  }

  lemma FeedsWeaken(p: Trace, a: Future, b: Future, c: Future)
    requires Feeds(p, b, c) && a <= b
    ensures Feeds(p, a, c)
  {}

  lemma FeedsBehind(p: Trace, events: Trace, a: Future, b: Future)
    ensures Feeds(p, Behind(events, a), b) <==> Feeds(p + events, a, b)
  {
    if Feeds(p, Behind(events, a), b) {
      forall t | t in a ensures p + events + t in b {
        assert p + (events + t) == p + events + t;
      }
    }
    if Feeds(p + events, a, b) {
      forall t | t in Behind(events, a) ensures p + t in b {
        var u :| u in a && t == events + u;
        assert p + (events + u) == p + events + u;
      }
    }
  }

  lemma BehindNothing(a: Future)
    ensures Behind([], a) == a
  {
    forall t | t in Behind([], a) ensures t in a {
      var u :| u in a && t == [] + u;
      assert t == u;
    }
    forall t | t in a ensures t in Behind([], a) {
      assert [] + t == t;
    }
  }

  lemma AfterIntro(s: Stmt, e: Env, k: Kont, r: Run)
    requires IsRun(s, e, r)
    ensures Feeds(Events(r), k(r.out), After(s, e, k))
  {}

  lemma AfterSeqEmpty(e: Env, k: Kont)
    ensures AfterSeq([], e, k) == k(Normal)
  {
    forall t | t in AfterSeq([], e, k) ensures t in k(Normal) {
      var r: Run, u: Trace :| IsRunSeq([], e, r) && u in k(r.out) && t == Events(r) + u;
      assert t == u;
    }
    forall t | t in k(Normal) ensures t in AfterSeq([], e, k) {
      assert IsRunSeq([], e, Done) && Events(Done) + t == t;
    }
  }

  /** Futures depend only on the continuation's values. */
  lemma AfterSeqCong(ss: seq<Stmt>, e: Env, k: Kont, k': Kont)
    requires forall o :: k(o) == k'(o)
    ensures AfterSeq(ss, e, k) == AfterSeq(ss, e, k')
  {}

  // ---- Statements that visit one reference

  lemma LeafFeeds(s: Stmt, e: Env, k: Kont, events: Trace, out: Outcome)
    requires IsRun(s, e, Leaf(events, out))
    ensures Feeds(events, k(out), After(s, e, k))
  {
    AfterIntro(s, e, k, Leaf(events, out));
  }

  /** The future of a body, behind a reference that heads the statement. */
  lemma {:induction false} HeadedFeeds(s: Stmt, e: Env, k: Kont, id: StmtId, way: EdgeKind, body: seq<Stmt>)
    requires forall r :: IsRunSeq(body, e, r) ==> IsRun(s, e, Node(Leaf(Refs([id]) + Mark(way), Normal), r, r.out))
    ensures Feeds(Refs([id]) + Mark(way), AfterSeq(body, e, k), After(s, e, k))
  {
    hide Refs, Mark, IsRun, IsRunSeq;
    var head := Refs([id]) + Mark(way);
    forall t | t in AfterSeq(body, e, k) ensures head + t in After(s, e, k) {
      var r: Run, u: Trace :| IsRunSeq(body, e, r) && u in k(r.out) && t == Events(r) + u;
      var whole := Node(Leaf(head, Normal), r, r.out);
      assert IsRun(s, e, whole);
      assert Events(whole) + u == head + t;
    }
  }

  // ---- Sequences

  /** Running `s` first and then `rest` is a run of the longer sequence. */
  lemma {:induction false} PrependRun(s: Stmt, rest: seq<Stmt>, e: Env, a: Run, b: Run) returns (r: Run)
    requires IsRun(s, e, a) && a.out.Normal? && IsRunSeq(rest, e, b)
    ensures IsRunSeq([s] + rest, e, r)
    ensures r.out == b.out && Events(r) == Events(a) + Events(b)
    decreases |rest|
  {
    var all := [s] + rest;
    if rest == [] {
      assert all[..0] == [] && all == [s];
      r := Node(Done, a, a.out);
    } else {
      var n := |rest| - 1;
      assert all[..|all| - 1] == [s] + rest[..n];
      var front := PrependRun(s, rest[..n], e, a, b.first);
      r := Node(front, b.second, b.out);
    }
  }

  /** A run of the first statement that stops abruptly is a run of the sequence. */
  lemma {:induction false} StopRun(s: Stmt, rest: seq<Stmt>, e: Env, a: Run) returns (r: Run)
    requires IsRun(s, e, a) && !a.out.Normal?
    ensures IsRunSeq([s] + rest, e, r)
    ensures r.out == a.out && Events(r) == Events(a)
    decreases |rest|
  {
    var all := [s] + rest;
    if rest == [] {
      assert all[..0] == [] && all == [s];
      r := Node(Done, a, a.out);
    } else {
      assert all[..|all| - 1] == [s] + rest[..|rest| - 1];
      var front := StopRun(s, rest[..|rest| - 1], e, a);
      r := Node(front, Done, front.out);
    }
  }

  lemma SequenceFeeds(s: Stmt, rest: seq<Stmt>, e: Env, k: Kont)
    ensures After(s, e, WithNormal(k, AfterSeq(rest, e, k))) <= AfterSeq([s] + rest, e, k)
  {
    hide IsRun, IsRunSeq;
    var k' := WithNormal(k, AfterSeq(rest, e, k));
    forall t | t in After(s, e, k') ensures t in AfterSeq([s] + rest, e, k) {
      var a: Run, u: Trace :| IsRun(s, e, a) && u in k'(a.out) && t == Events(a) + u;
      if a.out.Normal? {
        var b: Run, v: Trace :| IsRunSeq(rest, e, b) && v in k(b.out) && u == Events(b) + v;
        var r := PrependRun(s, rest, e, a, b);
        assert t == Events(r) + v;
      } else {
        var r := StopRun(s, rest, e, a);
        assert t == Events(r) + u;
      }
    }
  }

  // ---- Loops

  /** What follows a turn of the loop: another run of it, or nothing. */
  function AfterTurn(o: Outcome, r: Run): Run {
    if o.Normal? || o.Continued? then Node(Leaf(BackMark(o), Normal), r, r.out) else Done
  }

  /** One turn of the loop, followed by another run of the loop or by leaving it. */
  lemma LoopTurn(s: Stmt, e: Env, b: Run, r: Run) returns (whole: Run)
    requires s.Loop? && IsRunSeq(s.body, e.(inLoop := true), b)
    requires b.out.Normal? || b.out.Continued? ==> IsRun(s, e, r)
    ensures IsRun(s, e, whole)
    ensures Events(whole) == Refs([s.id]) + Mark(ConditionalTrue) + Events(b) + Events(AfterTurn(b.out, r))
    ensures whole.out == if b.out.Normal? || b.out.Continued? then r.out else AfterBreak(b.out)
  {
    hide Refs, Mark;
    var head := Refs([s.id]) + Mark(ConditionalTrue);
    var turn := Node(Leaf(head, Normal), b, b.out);
    whole := Node(turn, AfterTurn(b.out, r), if b.out.Normal? || b.out.Continued? then r.out else AfterBreak(b.out));
    assert Events(turn) == head + Events(b);
  }

  lemma LoopFeeds(s: Stmt, e: Env, k: Kont)
    requires s.Loop?
    ensures Feeds(Refs([s.id]) + Mark(ConditionalTrue),
                  AfterSeq(s.body, e.(inLoop := true), InLoop(k, BackFuture(s, e, k), After(s, e, k))), After(s, e, k))
  {
    hide Refs, Mark, IsRun, IsRunSeq;
    var head := Refs([s.id]) + Mark(ConditionalTrue);
    var k' := InLoop(k, BackFuture(s, e, k), After(s, e, k));
    forall t | t in AfterSeq(s.body, e.(inLoop := true), k') ensures head + t in After(s, e, k) {
      var b: Run, u: Trace :| IsRunSeq(s.body, e.(inLoop := true), b) && u in k'(b.out) && t == Events(b) + u;
      LoopTurnFeeds(s, e, k, b, u);
      assert head + t == head + Events(b) + u;
    }
  }

  lemma LoopTurnFeeds(s: Stmt, e: Env, k: Kont, b: Run, u: Trace)
    requires s.Loop? && IsRunSeq(s.body, e.(inLoop := true), b)
    requires u in InLoop(k, BackFuture(s, e, k), After(s, e, k))(b.out)
    ensures Refs([s.id]) + Mark(ConditionalTrue) + Events(b) + u in After(s, e, k)
  {
    hide IsRun, IsRunSeq, Refs, Mark;
    var head := Refs([s.id]) + Mark(ConditionalTrue);
    if b.out.Normal? || b.out.Continued? {
      assert u in Behind(BackMark(b.out), After(s, e, k)) by {
        BehindNothing(After(s, e, k));
      }
      var w :| w in After(s, e, k) && u == BackMark(b.out) + w;
      var r: Run, v: Trace :| IsRun(s, e, r) && v in k(r.out) && w == Events(r) + v;
      var whole := LoopTurn(s, e, b, r);
      assert Events(AfterTurn(b.out, r)) == BackMark(b.out) + Events(r);
      assert Events(whole) + v == head + Events(b) + u;
    } else {
      var whole := LoopTurn(s, e, b, Done);
      assert Events(AfterTurn(b.out, Done)) == [];
      assert Events(whole) + u == head + Events(b) + u;
    }
  }

  lemma RepeatBodyFeeds(s: Stmt, e: Env, k: Kont)
    requires s.Repeat?
    ensures var cond := RepeatCondition(s, e, k);
            AfterSeq(s.body, e.(inLoop := true), InLoop(k, cond, cond)) <= After(s, e, k)
  {
    hide RepeatCondition;
    var cond := RepeatCondition(s, e, k);
    var k' := InLoop(k, cond, cond);
    forall t | t in AfterSeq(s.body, e.(inLoop := true), k') ensures t in After(s, e, k) {
      var b: Run, u: Trace :| IsRunSeq(s.body, e.(inLoop := true), b) && u in k'(b.out) && t == Events(b) + u;
      if b.out.Normal? || b.out.Continued? {
        RepeatTurn(s, e, k, b, u);
      } else {
        var whole := Node(b, Done, AfterBreak(b.out));
        assert IsRun(s, e, whole);
        assert Events(whole) + u == t;
      }
    }
  }

  /** The condition of a repeat loop: it ends the loop, raises, or leads to another run. */
  ghost predicate IsCondition(s: Stmt, e: Env, c: Run)
    requires s.Repeat?
  {
    || c == Leaf(Refs([s.keyword, s.condition]) + Mark(LoopExit), Normal)
    || c == Leaf(Refs([s.keyword, s.condition]), Implicit)
    || (c.Node? && c.first == Leaf(Refs([s.keyword, s.condition]) + Mark(LoopBack), Normal) && IsRun(s, e, c.second)
        && c.out == c.second.out)
  }

  /** One turn of the body, followed by the condition and, if `again`, another run. */
  lemma RepeatRun(s: Stmt, e: Env, b: Run, c: Run) returns (whole: Run)
    requires s.Repeat? && IsRunSeq(s.body, e.(inLoop := true), b) && (b.out.Normal? || b.out.Continued?)
    requires IsCondition(s, e, c)
    ensures IsRun(s, e, whole) && Events(whole) == Events(b) + Events(c) && whole.out == c.out
  {
    whole := Node(b, c, c.out);
  }

  lemma RepeatTurn(s: Stmt, e: Env, k: Kont, b: Run, u: Trace)
    requires s.Repeat? && IsRunSeq(s.body, e.(inLoop := true), b) && (b.out.Normal? || b.out.Continued?)
    requires u in RepeatCondition(s, e, k)
    ensures Events(b) + u in After(s, e, k)
  {
    hide IsRun, IsRunSeq, Refs, Mark;
    var ev := Refs([s.keyword, s.condition]);
    var x :| x in Behind(Mark(LoopExit), k(Normal)) + k(Implicit) + Behind(Mark(LoopBack), After(s, e, k))
        && u == ev + x;
    if x in Behind(Mark(LoopExit), k(Normal)) {
      var v :| v in k(Normal) && x == Mark(LoopExit) + v;
      var whole := RepeatRun(s, e, b, Leaf(ev + Mark(LoopExit), Normal));
      assert Events(whole) + v == Events(b) + u;
    } else if x in k(Implicit) {
      var whole := RepeatRun(s, e, b, Leaf(ev, Implicit));
      assert Events(whole) + x == Events(b) + u;
    } else {
      RepeatAgain(s, e, k, b, x);
      assert Events(b) + ev + x == Events(b) + u;
    }
  }

  lemma RepeatAgain(s: Stmt, e: Env, k: Kont, b: Run, x: Trace)
    requires s.Repeat? && IsRunSeq(s.body, e.(inLoop := true), b) && (b.out.Normal? || b.out.Continued?)
    requires x in Behind(Mark(LoopBack), After(s, e, k))
    ensures Events(b) + Refs([s.keyword, s.condition]) + x in After(s, e, k)
  {
    hide IsRun, IsRunSeq, Refs, Mark;
    var ev := Refs([s.keyword, s.condition]);
    var v :| v in After(s, e, k) && x == Mark(LoopBack) + v;
    var r: Run, w: Trace :| IsRun(s, e, r) && w in k(r.out) && v == Events(r) + w;
    var c := Node(Leaf(ev + Mark(LoopBack), Normal), r, r.out);
    var whole := RepeatRun(s, e, b, c);
    assert Events(c) == ev + Mark(LoopBack) + Events(r);
    assert Events(whole) + w == Events(b) + ev + x;
  }

  /** A run of a loop that makes a turn: what the turn leaves behind, and what comes after it. */
  ghost predicate MakesTurn(s: Stmt, e: Env, r: Run)
    requires s.Loop?
  {
    && r.Node? && r.first.Node? && r.first.out == r.first.second.out
    && IsRunSeq(s.body, e.(inLoop := true), r.first.second)
    && (if r.first.out in {Normal, Continued} then
          && r.second.Node? && IsRun(s, e, r.second.second) && r.out == r.second.second.out
          && Events(r) == Refs([s.id]) + Mark(ConditionalTrue) + Events(r.first.second)
                          + BackMark(r.first.out) + Events(r.second.second)
        else
          && r.out == AfterBreak(r.first.out)
          && Events(r) == Refs([s.id]) + Mark(ConditionalTrue) + Events(r.first.second))
  }

  lemma LoopCases(s: Stmt, e: Env, r: Run)
    requires s.Loop? && IsRun(s, e, r)
    ensures r.Leaf? ==> r == Leaf(Refs([s.id]) + Mark(LoopExit), Normal) || r == Leaf(Refs([s.id]), Implicit)
    ensures r.Node? ==> MakesTurn(s, e, r)
  {
    hide IsRunSeq, Refs, Mark;
    if r.Node? {
      assert Events(r.first) == Refs([s.id]) + Mark(ConditionalTrue) + Events(r.first.second);
      assert Events(r) == Events(r.first) + Events(r.second);
      if r.first.out in {Normal, Continued} {
        assert Events(r.second) == BackMark(r.first.out) + Events(r.second.second);
      } else {
        assert Events(r.second) == [];
      }
    }
  }

  /** The condition behind a completed turn of a repeat loop, with what it leaves behind. */
  ghost predicate Tested(s: Stmt, e: Env, c: Run)
    requires s.Repeat?
  {
    || c == Leaf(Refs([s.keyword, s.condition]) + Mark(LoopExit), Normal)
    || c == Leaf(Refs([s.keyword, s.condition]), Implicit)
    || (&& c.Node? && IsRun(s, e, c.second) && c.out == c.second.out
        && Events(c) == Refs([s.keyword, s.condition]) + Mark(LoopBack) + Events(c.second))
  }

  lemma RepeatCases(s: Stmt, e: Env, r: Run)
    requires s.Repeat? && IsRun(s, e, r)
    ensures r.Node? && IsRunSeq(s.body, e.(inLoop := true), r.first) && Events(r) == Events(r.first) + Events(r.second)
    ensures if r.first.out in {Normal, Continued} then
              r.out == r.second.out && Tested(s, e, r.second)
            else Events(r.second) == [] && r.out == AfterBreak(r.first.out)
  {
    hide IsRunSeq, Refs, Mark;
  }

  // ---- try statements

  lemma TryFinallyFeeds(s: Stmt, e: Env, k: Kont)
    requires s.TryFinally?
    ensures AfterSeq(s.body, e, ThroughFinally(s.scope, s.cleanup, e, k)) <= After(s, e, k)
  {
    hide IsRun, IsRunSeq;
    var k' := ThroughFinally(s.scope, s.cleanup, e, k);
    forall t | t in AfterSeq(s.body, e, k') ensures t in After(s, e, k) {
      var a: Run, u: Trace :| IsRunSeq(s.body, e, a) && u in k'(a.out) && t == Events(a) + u;
      FinalizedIn(s, e, k, a, u);
    }
  }

  lemma FinalizedIn(s: Stmt, e: Env, k: Kont, a: Run, u: Trace)
    requires s.TryFinally? && IsRunSeq(s.body, e, a) && u in Cleaned(s.scope, a.out, s.cleanup, e, k)
    ensures Events(a) + u in After(s, e, k)
  {
    hide IsRun, IsRunSeq, Mark;
    var k'' := Resume(k, a.out);
    var y :| y in Finalized(s.scope, a.out, s.cleanup, e, k) && u == Mark(EntryKind(a.out)) + y;
    var x :| x in AfterSeq(s.cleanup, e, k'') && y == [Cleanup(s.scope, a.out)] + x;
    var b: Run, v: Trace :| IsRunSeq(s.cleanup, e, b) && v in k''(b.out) && x == Events(b) + v;
    var whole := FinallyRun(s, e, a, b);
    assert Events(whole) + v == Events(a) + u;
  }

  lemma FinallyRun(s: Stmt, e: Env, a: Run, b: Run) returns (whole: Run)
    requires s.TryFinally? && IsRunSeq(s.body, e, a) && IsRunSeq(s.cleanup, e, b)
    ensures IsRun(s, e, whole) && whole.out == (if b.out.Normal? then a.out else b.out)
    ensures Events(whole) == Events(a) + (Entered(s.scope, a.out) + Events(b))
  {
    hide Entered;
    var cleaned := Node(Leaf(Entered(s.scope, a.out), Normal), b, b.out);
    assert Events(cleaned) == Entered(s.scope, a.out) + Events(b);
    whole := Node(a, cleaned, if b.out.Normal? then a.out else b.out);
  }

  lemma FinalizedFeeds(f: ScopeId, o: Outcome, cleanup: seq<Stmt>, e: Env, k: Kont)
    ensures Feeds([Cleanup(f, o)], AfterSeq(cleanup, e, Resume(k, o)), Finalized(f, o, cleanup, e, k))
  {}

  lemma FinalizedCong(f: ScopeId, o: Outcome, cleanup: seq<Stmt>, e: Env, k: Kont, k': Kont)
    requires forall o' :: Resume(k, o)(o') == Resume(k', o)(o')
    ensures Finalized(f, o, cleanup, e, k) == Finalized(f, o, cleanup, e, k')
  {
    AfterSeqCong(cleanup, e, Resume(k, o), Resume(k', o));
  }

  lemma TryExceptFeeds(s: Stmt, e: Env, k: Kont)
    requires s.TryExcept?
    ensures AfterSeq(s.body, e, ThroughExcept(s.handlers, e, FactsOf(OutsSeq(s.body, e)), k)) <= After(s, e, k)
  {
    var incoming := FactsOf(OutsSeq(s.body, e));
    var k' := ThroughExcept(s.handlers, e, incoming, k);
    forall t | t in AfterSeq(s.body, e, k') ensures t in After(s, e, k) {
      var a: Run, u: Trace :| IsRunSeq(s.body, e, a) && u in k'(a.out) && t == Events(a) + u;
      if a.out.Raised? && u in Caught(s.handlers, e, incoming, k, a.out.fact) {
        CaughtFeeds(s, e, k, a, u);
      } else if a.out.Raised? && s.handlers == [] && u in Behind(Mark(ExceptionThrow), k(Normal)) {
        var v :| v in k(Normal) && u == Mark(ExceptionThrow) + v;
        var whole := Node(a, Leaf(Mark(ExceptionThrow), Normal), Normal);
        assert IsRun(s, e, whole) && Events(whole) + v == t;
      } else {
        var whole := Node(a, Done, a.out);
        assert IsRun(s, e, whole) && Events(whole) + u == t;
      }
    }
  }

  lemma HandledRun(s: Stmt, e: Env, a: Run, i: nat, b: Run) returns (whole: Run)
    requires s.TryExcept? && IsRunSeq(s.body, e, a) && a.out.Raised? && i < |s.handlers|
    requires MayCatch(e.index, s.handlers, a.out.fact, i)
    requires IsRunSeq(s.handlers[i].body, HandlerEnv(e, s.handlers[i], FactsOf(OutsSeq(s.body, e))), b)
    ensures IsRun(s, e, whole) && whole.out == b.out && Events(whole) == Events(a) + (Mark(ExceptionThrow) + Events(b))
  {
    hide IsRunSeq, OutsSeq, MayCatch, Mark;
    var handled := Node(Leaf(Mark(ExceptionThrow), Normal), b, b.out);
    assert Events(handled) == Mark(ExceptionThrow) + Events(b);
    whole := Node(a, handled, b.out);
  }

  lemma CaughtFeeds(s: Stmt, e: Env, k: Kont, a: Run, u: Trace)
    requires s.TryExcept? && IsRunSeq(s.body, e, a) && a.out.Raised?
    requires u in Caught(s.handlers, e, FactsOf(OutsSeq(s.body, e)), k, a.out.fact)
    ensures Events(a) + u in After(s, e, k)
  {
    hide IsRun, IsRunSeq, OutsSeq, MayCatch, Mark;
    var incoming := FactsOf(OutsSeq(s.body, e));
    var i: nat, x: Trace :| i < |s.handlers| && MayCatch(e.index, s.handlers, a.out.fact, i)
      && x in AfterSeq(s.handlers[i].body, HandlerEnv(e, s.handlers[i], incoming), k) && u == Mark(ExceptionThrow) + x;
    var e' := HandlerEnv(e, s.handlers[i], incoming);
    var b: Run, v: Trace :| IsRunSeq(s.handlers[i].body, e', b) && v in k(b.out) && x == Events(b) + v;
    var whole := HandledRun(s, e, a, i, b);
    assert Events(whole) + v == Events(a) + u;
  }
}
