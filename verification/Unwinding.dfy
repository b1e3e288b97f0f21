/** How completions leave the statements around them: which cleanups run, in which order, and where it goes on. */
module Unwinding {
  import opened ExceptionTypes
  import opened PascalSyntax
  import opened StructuredRuns
  import opened Continuations
  import opened ControlFlowGraph
  import opened PendingTransfers
  import opened ScopePlacement
  import opened ProgramPoints

  // ---- Abrupt completions

  /**
    The construct around the point deals with this completion: a loop with its jumps, `try..except`
    with exceptions.
    */
  predicate Takes(at: Point, o: Outcome) {
    || at.RoutineEnd?
    || (at.Turn? && (o.Broke? || o.Continued?))
    || (at.Watched? && o.Raised?)
  }

  /** The innermost construct that deals with the completion. */
  function Taker(at: Point, o: Outcome): (taker: Point)
    ensures Takes(taker, o)
  {
    if Takes(at, o) then at else Taker(at.rest, o)
  }

  predicate IsTried(at: Point) {
    at.Tried? && at.s.TryFinally?
  }

  /** A `try..finally` whose body the point is in, and where that statement stands. */
  datatype Guard = Guard(scope: ScopeId, cleanup: seq<Stmt>, at: Point)

  function GuardOf(at: Point): Guard
    requires IsTried(at)
  {
    Guard(at.s.scope, at.s.cleanup, at.rest)
  }

  /** The `try..finally` statements that the completion leaves on its way, innermost first. */
  function Passed(at: Point, o: Outcome): seq<Guard> {
    if Takes(at, o) then [] else (if IsTried(at) then [GuardOf(at)] else []) + Passed(at.rest, o)
  }

  /** The cleanups of the first of these, one after the other, each entered with `o` pending. */
  function Cleanups(ps: seq<Guard>, o: Outcome, cs: seq<Run>): Trace
    requires |cs| <= |ps|
  {
    if cs == [] then [] else Entered(ps[0].scope, o) + Events(cs[0]) + Cleanups(ps[1..], o, cs[1..])
  }

  /** Each of these is a run of the cleanup of its `try..finally`; all but the last end normally. */
  ghost predicate CleanupRuns(index: TypeIndex, ps: seq<Guard>, cs: seq<Run>)
    requires |cs| <= |ps|
  {
    && (forall i :: 0 <= i < |cs| ==> IsRunSeq(ps[i].cleanup, EnvOf(index, ps[i].at), cs[i]))
    && (forall i :: 0 <= i < |cs| - 1 ==> cs[i].out.Normal?)
  }

  /**
    The trace `t` of completing with `o`: the cleanups on the way, innermost first and each ended
    before the next, and then `u`. If all of them end normally, `u` goes on from the construct
    that deals with `o`; otherwise the last one's own completion goes on from where it stands.
    */
  ghost predicate UnwindsBy(index: TypeIndex, at: Point, o: Outcome, t: Trace, cs: seq<Run>, u: Trace) {
    var ps := Passed(at, o);
    && |cs| <= |ps| && CleanupRuns(index, ps, cs) && t == Cleanups(ps, o, cs) + u
    && if cs != [] && !cs[|cs| - 1].out.Normal? then u in Onward(index, ps[|cs| - 1].at)(cs[|cs| - 1].out)
       else |cs| == |ps| && u in Onward(index, Taker(at, o))(o)
  }

  /** A construct that does not deal with an abrupt completion hands it on, a `try..finally` through its cleanup. */
  lemma HandsOn(index: TypeIndex, at: Point, o: Outcome)
    requires !o.Normal? && !Takes(at, o)
    ensures Onward(index, at)(o)
            == if IsTried(at) then Cleaned(at.s.scope, o, at.s.cleanup, EnvOf(index, at.rest), Onward(index, at.rest))
               else Onward(index, at.rest)(o)
  {
    hide After, AfterSeq, EnvOf, HeadFuture, Finalized, OutsSeq;
  }

  lemma FinalizedParts(f: ScopeId, o: Outcome, cleanup: seq<Stmt>, e: Env, k: Kont, t: Trace) returns (c: Run, v: Trace)
    requires t in Finalized(f, o, cleanup, e, k)
    ensures IsRunSeq(cleanup, e, c) && t == [Cleanup(f, o)] + Events(c) + v
    ensures v in k(if c.out.Normal? then o else c.out)
  {
    hide IsRunSeq;
    var k' := Resume(k, o);
    var x :| x in AfterSeq(cleanup, e, k') && t == [Cleanup(f, o)] + x;
    c, v :| IsRunSeq(cleanup, e, c) && v in k'(c.out) && x == Events(c) + v;
    assert t == [Cleanup(f, o)] + Events(c) + v;
  }

  lemma CleanedParts(f: ScopeId, o: Outcome, cleanup: seq<Stmt>, e: Env, k: Kont, t: Trace) returns (c: Run, v: Trace)
    requires t in Cleaned(f, o, cleanup, e, k)
    ensures IsRunSeq(cleanup, e, c) && t == Entered(f, o) + Events(c) + v
    ensures v in k(if c.out.Normal? then o else c.out)
  {
    hide IsRunSeq, Finalized, Mark;
    var y :| y in Finalized(f, o, cleanup, e, k) && t == Mark(EntryKind(o)) + y;
    c, v := FinalizedParts(f, o, cleanup, e, k, y);
    assert Mark(EntryKind(o)) + ([Cleanup(f, o)] + Events(c) + v) == Entered(f, o) + Events(c) + v;
  }

  lemma CleanedFollows(s: Stmt, e: Env, k: Kont, o: Outcome, c: Run, u: Trace)
    requires s.TryFinally? && IsRunSeq(s.cleanup, e, c) && u in k(if c.out.Normal? then o else c.out)
    ensures Entered(s.scope, o) + Events(c) + u in Cleaned(s.scope, o, s.cleanup, e, k)
  {
    hide IsRunSeq, Finalized, Mark;
    CleanupFollows(s, e, k, o, c, u);
    assert Mark(EntryKind(o)) + ([Cleanup(s.scope, o)] + Events(c) + u) == Entered(s.scope, o) + Events(c) + u;
  }

  /** Whatever may follow an abrupt completion is such a trace. */
  lemma {:induction false} Unwinds(index: TypeIndex, at: Point, o: Outcome, t: Trace) returns (cs: seq<Run>, u: Trace)
    requires !o.Normal? && t in Onward(index, at)(o)
    ensures UnwindsBy(index, at, o, t, cs, u)
    decreases at
  {
    hide Onward, EnvOf, Cleaned, IsRunSeq, Entered, Events, UnwindsBy, Passed;
    if Takes(at, o) {
      cs, u := [], t;
      UnwindsHere(index, at, o, t);
    } else {
      HandsOn(index, at, o);
      if !IsTried(at) {
        cs, u := Unwinds(index, at.rest, o, t);
        UnwindsOut(index, at, o, t, cs, u);
      } else {
        var c, v := CleanedParts(at.s.scope, o, at.s.cleanup, EnvOf(index, at.rest), Onward(index, at.rest), t);
        if c.out.Normal? {
          var more;
          more, u := Unwinds(index, at.rest, o, v);
          cs := [c] + more;
          UnwindsMore(index, at, o, t, c, more, v, u);
        } else {
          cs, u := [c], v;
          UnwindsLast(index, at, o, t, c, v);
        }
      }
    }
  }

  lemma UnwindsHere(index: TypeIndex, at: Point, o: Outcome, t: Trace)
    requires Takes(at, o) && t in Onward(index, at)(o)
    ensures UnwindsBy(index, at, o, t, [], t)
  {
    hide Onward, EnvOf, IsRunSeq;
    assert [] + t == t;
  }

  /** A construct that hands the completion on adds no cleanup. */
  lemma UnwindsOut(index: TypeIndex, at: Point, o: Outcome, t: Trace, cs: seq<Run>, u: Trace)
    requires !Takes(at, o) && !IsTried(at)
    ensures UnwindsBy(index, at, o, t, cs, u) <==> UnwindsBy(index, at.rest, o, t, cs, u)
  {
    hide Onward, EnvOf, IsRunSeq, Cleanups, CleanupRuns;
    assert Passed(at, o) == Passed(at.rest, o);
  }

  /** A cleanup that ends abruptly is the last one. */
  lemma UnwindsLast(index: TypeIndex, at: Point, o: Outcome, t: Trace, c: Run, v: Trace)
    requires !Takes(at, o) && IsTried(at) && IsRunSeq(at.s.cleanup, EnvOf(index, at.rest), c) && !c.out.Normal?
    requires t == Entered(at.s.scope, o) + Events(c) + v && v in Onward(index, at.rest)(c.out)
    ensures UnwindsBy(index, at, o, t, [c], v)
  {
    hide Onward, EnvOf, IsRunSeq, Entered, Events;
    var ps, cs := Passed(at, o), [c];
    assert ps[0] == GuardOf(at) && cs[1..] == [] && Cleanups(ps[1..], o, cs[1..]) == [];
    assert Cleanups(ps, o, cs) == Entered(at.s.scope, o) + Events(c) + [];
  }

  lemma UnwindsMore(index: TypeIndex, at: Point, o: Outcome, t: Trace, c: Run, more: seq<Run>, v: Trace, u: Trace)
    requires !Takes(at, o) && IsTried(at) && IsRunSeq(at.s.cleanup, EnvOf(index, at.rest), c) && c.out.Normal?
    requires t == Entered(at.s.scope, o) + Events(c) + v && UnwindsBy(index, at.rest, o, v, more, u)
    ensures UnwindsBy(index, at, o, t, [c] + more, u)
  {
    hide Onward, EnvOf, IsRunSeq, Entered, Events, Cleanups, CleanupRuns;
    var ps, qs, cs := Passed(at, o), Passed(at.rest, o), [c] + more;
    assert ps == [GuardOf(at)] + qs && ps[0] == GuardOf(at) && ps[1..] == qs && cs[0] == c && cs[1..] == more;
    RunsMore(index, GuardOf(at), qs, c, more);
    CleanupsMore(ps, o, cs);
    assert Entered(at.s.scope, o) + Events(c) + (Cleanups(qs, o, more) + u) == Cleanups(ps, o, cs) + u;
    if more != [] {
      assert cs[|cs| - 1] == more[|more| - 1] && ps[|cs| - 1] == qs[|more| - 1];
    }
  }

  lemma CleanupsMore(ps: seq<Guard>, o: Outcome, cs: seq<Run>)
    requires cs != [] && |cs| <= |ps|
    ensures Cleanups(ps, o, cs) == Entered(ps[0].scope, o) + Events(cs[0]) + Cleanups(ps[1..], o, cs[1..])
  {}

  lemma RunsMore(index: TypeIndex, p: Guard, ps: seq<Guard>, c: Run, cs: seq<Run>)
    requires |cs| <= |ps| && CleanupRuns(index, ps, cs) && IsRunSeq(p.cleanup, EnvOf(index, p.at), c) && c.out.Normal?
    ensures CleanupRuns(index, [p] + ps, [c] + cs)
  {
    hide EnvOf, IsRunSeq;
    var all, runs := [p] + ps, [c] + cs;
    forall i | 0 <= i < |runs| ensures IsRunSeq(all[i].cleanup, EnvOf(index, all[i].at), runs[i]) {
      if i > 0 {
        assert all[i] == ps[i - 1] && runs[i] == cs[i - 1];
      }
    }
    forall i | 0 <= i < |runs| - 1 ensures runs[i].out.Normal? {
      if i > 0 {
        assert runs[i] == cs[i - 1];
      }
    }
  }

  /** And every such trace may follow it. */
  lemma {:induction false} Rewinds(index: TypeIndex, at: Point, o: Outcome, t: Trace, cs: seq<Run>, u: Trace)
    requires !o.Normal? && UnwindsBy(index, at, o, t, cs, u)
    ensures t in Onward(index, at)(o)
    decreases at
  {
    hide Onward, EnvOf, Cleaned, IsRunSeq, Refs, Entered, Events, UnwindsBy;
    if Takes(at, o) {
      RewindsHere(index, at, o, t, cs, u);
    } else {
      HandsOn(index, at, o);
      if !IsTried(at) {
        UnwindsOut(index, at, o, t, cs, u);
        Rewinds(index, at.rest, o, t, cs, u);
      } else {
        var v := RewindsOne(index, at, o, t, cs, u);
        if cs[0].out.Normal? {
          Rewinds(index, at.rest, o, v, cs[1..], u);
        }
        CleanedFollows(at.s, EnvOf(index, at.rest), Onward(index, at.rest), o, cs[0], v);
      }
    }
  }

  lemma RewindsHere(index: TypeIndex, at: Point, o: Outcome, t: Trace, cs: seq<Run>, u: Trace)
    requires Takes(at, o) && UnwindsBy(index, at, o, t, cs, u)
    ensures t in Onward(index, at)(o)
  {
    hide Onward, EnvOf, IsRunSeq;
    assert cs == [] && t == u;
  }

  /** The first cleanup, and what comes behind it. */
  lemma RewindsOne(index: TypeIndex, at: Point, o: Outcome, t: Trace, cs: seq<Run>, u: Trace) returns (v: Trace)
    requires !Takes(at, o) && IsTried(at) && UnwindsBy(index, at, o, t, cs, u)
    ensures cs != [] && t == Entered(at.s.scope, o) + Events(cs[0]) + v
    ensures IsRunSeq(at.s.cleanup, EnvOf(index, at.rest), cs[0])
    ensures cs[0].out.Normal? ==> UnwindsBy(index, at.rest, o, v, cs[1..], u)
    ensures !cs[0].out.Normal? ==> v in Onward(index, at.rest)(cs[0].out)
  {
    hide Onward, EnvOf, IsRunSeq, Entered, Events;
    var ps := Passed(at, o);
    assert ps == [GuardOf(at)] + Passed(at.rest, o) && ps[1..] == Passed(at.rest, o) && cs != [];
    v := Cleanups(ps[1..], o, cs[1..]) + u;
    assert t == Entered(at.s.scope, o) + Events(cs[0]) + v;
    if cs[0].out.Normal? {
      RewindsLess(index, at, o, cs, v, u);
    } else {
      assert |cs| == 1 && v == u;
    }
  }

  lemma RewindsLess(index: TypeIndex, at: Point, o: Outcome, cs: seq<Run>, v: Trace, u: Trace)
    requires !Takes(at, o) && IsTried(at) && cs != [] && cs[0].out.Normal?
    requires |cs| <= |Passed(at, o)| && UnwindsBy(index, at, o, Cleanups(Passed(at, o), o, cs) + u, cs, u)
    requires v == Cleanups(Passed(at.rest, o), o, cs[1..]) + u
    ensures UnwindsBy(index, at.rest, o, v, cs[1..], u)
  {
    hide Onward, EnvOf, IsRunSeq;
    var ps, qs, more := Passed(at, o), Passed(at.rest, o), cs[1..];
    assert ps == [GuardOf(at)] + qs;
    forall i | 0 <= i < |more| ensures IsRunSeq(qs[i].cleanup, EnvOf(index, qs[i].at), more[i]) {
      assert ps[i + 1] == qs[i] && cs[i + 1] == more[i];
    }
    forall i | 0 <= i < |more| - 1 ensures more[i].out.Normal? {
      assert cs[i + 1] == more[i];
    }
    if more != [] {
      assert more[|more| - 1] == cs[|cs| - 1] && qs[|more| - 1] == ps[|cs| - 1];
    }
  }

  // ---- Jumps

  /** The loops around a point, innermost first. */
  function LoopsAround(at: Point): seq<Point> {
    if at.RoutineEnd? then [] else (if at.Turn? then [at] else []) + LoopsAround(at.rest)
  }

  lemma {:induction false} InLoops(index: TypeIndex, at: Point)
    ensures EnvOf(index, at).inLoop <==> LoopsAround(at) != []
    decreases at
  {
    if !at.RoutineEnd? {
      InLoops(index, at.rest);
    }
  }

  /** A jump is dealt with by the innermost loop: Break goes on after it, Continue at its head. */
  lemma {:induction false} JumpsInnermost(index: TypeIndex, at: Point, o: Outcome)
    requires (o.Broke? || o.Continued?) && LoopsAround(at) != []
    ensures Taker(at, o) == LoopsAround(at)[0] && Taker(at, o).Turn?
    ensures var loop := Taker(at, o);
            Onward(index, loop)(o)
            == if o.Broke? then Onward(index, loop.rest)(Normal)
               else HeadFuture(loop.s, EnvOf(index, loop.rest), Onward(index, loop.rest))
    decreases at
  {
    hide HeadFuture, EnvOf, After, AfterSeq;
    if !at.Turn? {
      JumpsInnermost(index, at.rest, o);
    }
  }

  // ---- All completions

  /** All `try..finally` statements whose bodies the point is in, innermost first. */
  function AllTried(at: Point): seq<Guard> {
    if at.RoutineEnd? then [] else (if IsTried(at) then [GuardOf(at)] else []) + AllTried(at.rest)
  }

  /**
    A whole run of the cleanup of `p`, entered with `o` pending, and then `u`, which goes on with
    `o` or the cleanup's own completion.
    */
  ghost predicate CleansUp(index: TypeIndex, p: Guard, o: Outcome, c: Run, u: Trace, t: Trace) {
    && IsRunSeq(p.cleanup, EnvOf(index, p.at), c) && t == [Cleanup(p.scope, o)] + Events(c) + u
    && u in Onward(index, p.at)(if c.out.Normal? then o else c.out)
  }

  /** The trace runs all these cleanups in this order, each ended before the next starts. */
  ghost predicate RunsInOrder(index: TypeIndex, ps: seq<Guard>, t: Trace)
    decreases |ps|
  {
    ps == [] || exists n: nat, o: Outcome, c: Run, u: Trace :: RunsFirst(index, ps, t, n, o, c, u)
  }

  ghost predicate RunsFirst(index: TypeIndex, ps: seq<Guard>, t: Trace, n: nat, o: Outcome, c: Run, u: Trace)
    requires ps != []
    decreases |ps|, 0
  {
    n < |t| && CleansUp(index, ps[0], o, c, u, t[n..]) && RunsInOrder(index, ps[1..], u)
  }

  /** What may follow a point is something, and then what may follow the point around it. */
  lemma OnwardStep(index: TypeIndex, at: Point, o: Outcome, t: Trace) returns (x: Trace, u: Trace, o': Outcome)
    requires !at.RoutineEnd? && !IsTried(at) && t in Onward(index, at)(o)
    ensures t == x + u && u in Onward(index, at.rest)(o')
  {
    hide EnvOf, IsRun, IsRunSeq, OutsSeq, MayCatch, Escapes, Refs, Mark, TurnKont;
    var k, e := Onward(index, at.rest), EnvOf(index, at.rest);
    match at
    case Before(next, _) =>
      if o.Normal? {
        x, u, o' := AfterParts(next, e, k, t);
      } else {
        x, u, o' := [], t, o;
      }
    case Turn(s, _) => x, u, o' := TurnParts(s, e, k, o, t);
    case Cleaning(_, p, _) => x, u, o' := [], t, if o.Normal? then p else o;
    case Watched(s, _) =>
      if s.TryExcept? && o.Raised? && t in Caught(s.handlers, e, FactsOf(OutsSeq(s.body, e)), k, o.fact) {
        x, u, o' := CaughtParts(s, e, k, o, t);
      } else if s.TryExcept? && o.Raised? && s.handlers == [] && t in Behind(Mark(ExceptionThrow), k(Normal)) {
        x, o' := Mark(ExceptionThrow), Normal;
        u :| u in k(Normal) && t == x + u;
      } else {
        x, u, o' := [], t, o;
      }
    case _ => x, u, o' := [], t, o;
  }

  lemma AfterParts(s: Stmt, e: Env, k: Kont, t: Trace) returns (x: Trace, u: Trace, o: Outcome)
    requires t in After(s, e, k)
    ensures t == x + u && u in k(o)
  {
    hide IsRun;
    var r: Run, v: Trace :| IsRun(s, e, r) && v in k(r.out) && t == Events(r) + v;
    x, u, o := Events(r), v, r.out;
  }

  lemma HeadParts(s: Stmt, e: Env, k: Kont, t: Trace) returns (x: Trace, u: Trace, o: Outcome)
    requires t in HeadFuture(s, e, k)
    ensures t == x + u && u in k(o)
    ensures s.Repeat? ==> |x| >= 2 && t[..2] == Refs([s.keyword, s.condition])
  {
    hide After, Refs, Mark;
    if s.Repeat? {
      TwoRefs(s.keyword, s.condition);
      var ids := Refs([s.keyword, s.condition]);
      var v :| v in Behind(Mark(LoopExit), k(Normal)) + k(Implicit) + Behind(Mark(LoopBack), After(s, e, k))
        && t == ids + v;
      var y;
      if v in k(Implicit) {
        y, u, o := [], v, Implicit;
      } else if v in Behind(Mark(LoopExit), k(Normal)) {
        y, o := Mark(LoopExit), Normal;
        u :| u in k(Normal) && v == y + u;
      } else {
        var w :| w in After(s, e, k) && v == Mark(LoopBack) + w;
        var z;
        z, u, o := AfterParts(s, e, k, w);
        y := Mark(LoopBack) + z;
      }
      x := ids + y;
      assert t == x + u;
    } else {
      x, u, o := AfterParts(s, e, k, t);
    }
  }

  lemma TurnParts(s: Stmt, e: Env, k: Kont, o: Outcome, t: Trace) returns (x: Trace, u: Trace, o': Outcome)
    requires t in TurnKont(s, e, k)(o)
    ensures t == x + u && u in k(o')
  {
    hide HeadFuture, After, Mark;
    if o.Continued? || (o.Normal? && s.Repeat?) {
      BackIsHead(s, e, k);
      x, u, o' := HeadParts(s, e, k, t);
    } else if o.Normal? {
      var w :| w in After(s, e, k) && t == Mark(LoopBack) + w;
      var y;
      y, u, o' := AfterParts(s, e, k, w);
      x := Mark(LoopBack) + y;
      assert t == x + u;
    } else {
      x, u, o' := [], t, if o.Broke? then Normal else o;
    }
  }

  lemma BackIsHead(s: Stmt, e: Env, k: Kont)
    ensures s.Repeat? ==> BackFuture(s, e, k) == HeadFuture(s, e, k)
  {}

  lemma CaughtParts(s: Stmt, e: Env, k: Kont, o: Outcome, t: Trace) returns (x: Trace, u: Trace, o': Outcome)
    requires s.TryExcept? && o.Raised? && t in Caught(s.handlers, e, FactsOf(OutsSeq(s.body, e)), k, o.fact)
    ensures t == x + u && u in k(o')
  {
    hide IsRunSeq, OutsSeq, MayCatch, HandlerEnv, Mark;
    var incoming := FactsOf(OutsSeq(s.body, e));
    var i: nat, y: Trace :| i < |s.handlers| && MayCatch(e.index, s.handlers, o.fact, i)
      && y in AfterSeq(s.handlers[i].body, HandlerEnv(e, s.handlers[i], incoming), k) && t == Mark(ExceptionThrow) + y;
    var r: Run, v: Trace :| IsRunSeq(s.handlers[i].body, HandlerEnv(e, s.handlers[i], incoming), r) && v in k(r.out)
        && y == Events(r) + v;
    x, u, o' := Mark(ExceptionThrow) + Events(r), v, r.out;
    assert t == x + u;
  }

  lemma LaterInOrder(index: TypeIndex, ps: seq<Guard>, x: Trace, u: Trace)
    requires RunsInOrder(index, ps, u)
    ensures RunsInOrder(index, ps, x + u)
  {
    hide CleansUp;
    if ps != [] {
      var n: nat, o: Outcome, c: Run, v: Trace :| RunsFirst(index, ps, u, n, o, c, v);
      assert (x + u)[|x| + n..] == u[n..];
      assert RunsFirst(index, ps, x + u, |x| + n, o, c, v);
    }
  }

  /** However a statement completes, the cleanups of all `try..finally` around it follow, innermost first. */
  lemma {:induction false} FollowsInOrder(index: TypeIndex, at: Point, o: Outcome, t: Trace)
    requires t in Onward(index, at)(o)
    ensures RunsInOrder(index, AllTried(at), t)
    decreases at
  {
    hide EnvOf, Finalized, RunsInOrder, Mark;
    if at.RoutineEnd? {
      NoneInOrder(index, t);
    } else if IsTried(at) {
      var ps := AllTried(at);
      assert ps == [GuardOf(at)] + AllTried(at.rest) && ps[1..] == AllTried(at.rest);
      var mark := Mark(EntryKind(o));
      var y :| y in Finalized(at.s.scope, o, at.s.cleanup, EnvOf(index, at.rest), Onward(index, at.rest))
        && t == mark + y;
      var c, v := FinalizedParts(at.s.scope, o, at.s.cleanup, EnvOf(index, at.rest), Onward(index, at.rest), y);
      hide Onward;
      FollowsInOrder(index, at.rest, if c.out.Normal? then o else c.out, v);
      FirstInOrder(index, ps, y, o, c, v);
      LaterInOrder(index, ps, mark, y);
    } else {
      hide Onward;
      var x, u, o' := OnwardStep(index, at, o, t);
      FollowsInOrder(index, at.rest, o', u);
      LaterInOrder(index, AllTried(at.rest), x, u);
      assert AllTried(at) == AllTried(at.rest);
    }
  }

  lemma NoneInOrder(index: TypeIndex, t: Trace)
    ensures RunsInOrder(index, [], t)
  {}

  lemma FirstInOrder(index: TypeIndex, ps: seq<Guard>, t: Trace, o: Outcome, c: Run, u: Trace)
    requires ps != [] && RunsInOrder(index, ps[1..], u)
    requires CleansUp(index, ps[0], o, c, u, t)
    ensures RunsInOrder(index, ps, t)
  {
    assert t[0..] == t && t != [];
    hide CleansUp;
    assert RunsFirst(index, ps, t, 0, o, c, u);
  }

  // ---- Scopes

  /** The scopes of the `try..finally` bodies around a point, outermost first. */
  function ScopesAt(at: Point): seq<ScopeId> {
    if at.RoutineEnd? then [] else ScopesAt(at.rest) + if IsTried(at) then [at.s.scope] else []
  }

  ghost predicate NoRepeats(scopes: seq<ScopeId>) {
    forall i, j :: 0 <= i < j < |scopes| ==> scopes[i] != scopes[j]
  }

  lemma {:induction false} SeqLast(front: seq<Stmt>, s: Stmt)
    ensures DistinctSeq(front + [s]) ==> DistinctSeq(front) && Distinct(s)
    ensures ScopesInSeq(front + [s]) == ScopesInSeq(front) + ScopesIn(s)
  {
    assert (front + [s])[..|front|] == front;
  }

  /** In a numbered routine the scopes around a point are distinct, and none is also inside. */
  lemma {:induction false} PointScopes(root: seq<Stmt>, at: Point, ss: seq<Stmt>)
    requires DistinctSeq(root) && SitsSeq(root, at, ss)
    ensures DistinctSeq(ss) && NoRepeats(ScopesAt(at)) && forall f :: f in ScopesAt(at) ==> f !in ScopesInSeq(ss)
    decreases at
  {
    hide Distinct, DistinctSeq, ScopesIn, ScopesInSeq, NoRepeats, IsBody;
    if at.RoutineEnd? {
      NothingRepeats();
    } else if at.Before? {
      PointScopes(root, at.rest, ss + [at.next]);
      SeqLast(ss, at.next);
      assert ScopesAt(at) == ScopesAt(at.rest);
    } else {
      var front :| SitsSeq(root, at.rest, front + [at.s]);
      PointScopes(root, at.rest, front + [at.s]);
      SeqLast(front, at.s);
      PartScopes(at, ss);
      if IsTried(at) {
        OneMore(ScopesAt(at.rest), at.s.scope);
      } else {
        assert ScopesAt(at) == ScopesAt(at.rest);
      }
    }
  }

  lemma NothingRepeats()
    ensures NoRepeats([])
  {}

  lemma OneMore(scopes: seq<ScopeId>, f: ScopeId)
    requires NoRepeats(scopes) && f !in scopes
    ensures NoRepeats(scopes + [f])
  {}

  lemma PartScopes(at: Point, ss: seq<Stmt>)
    requires !at.RoutineEnd? && !at.Before? && Distinct(at.s)
    requires match at
             case Branch(s, body, _) => IsBody(s, body) && ss == body
             case Turn(s, _) => (s.Loop? || s.Repeat?) && ss == s.body
             case Tried(s, _) => s.TryFinally? && ss == s.body
             case Cleaning(s, _, _) => s.TryFinally? && ss == s.cleanup
             case Watched(s, _) => s.TryExcept? && ss == s.body
             case Handling(s, i, _) => s.TryExcept? && i < |s.handlers| && ss == s.handlers[i].body
             case _ => false
    ensures DistinctSeq(ss) && ScopesInSeq(ss) <= ScopesIn(at.s)
    ensures IsTried(at) ==> at.s.scope in ScopesIn(at.s) && at.s.scope !in ScopesInSeq(ss)
  {
    hide DistinctSeq, ScopesInSeq, DistinctArms, DistinctHandlers, ScopesInArms, ScopesInHandlers;
    if at.Handling? {
      HandlerScopes(at.s.handlers, at.i);
    } else if at.Branch? && at.s.Case? && !(at.s.fallback.Fallback? && ss == at.s.fallback.body) {
      var i :| 0 <= i < |at.s.arms| && at.s.arms[i].body == ss;
      ArmScopes(at.s.arms, i);
    }
  }

  lemma {:induction false} ArmScopes(arms: seq<Arm>, i: nat)
    requires i < |arms| && DistinctArms(arms)
    ensures DistinctSeq(arms[i].body) && ScopesInSeq(arms[i].body) <= ScopesInArms(arms)
    decreases |arms|
  {
    if i < |arms| - 1 {
      ArmScopes(arms[..|arms| - 1], i);
    }
  }

  lemma {:induction false} HandlerScopes(hs: seq<Handler>, i: nat)
    requires i < |hs| && DistinctHandlers(hs)
    ensures DistinctSeq(hs[i].body) && ScopesInSeq(hs[i].body) <= ScopesInHandlers(hs)
    decreases |hs|
  {
    if i < |hs| - 1 {
      HandlerScopes(hs[..|hs| - 1], i);
    }
  }

  /** The scopes around a point are those around the taker and then those that are left on the way. */
  lemma {:induction false} ScopesLeft(at: Point, o: Outcome)
    ensures |ScopesAt(at)| == |ScopesAt(Taker(at, o))| + |Passed(at, o)| && ScopesAt(Taker(at, o)) <= ScopesAt(at)
    ensures forall i :: 0 <= i < |Passed(at, o)| ==> ScopesAt(at)[|ScopesAt(at)| - 1 - i] == Passed(at, o)[i].scope
    decreases at
  {
    if !Takes(at, o) {
      ScopesLeft(at.rest, o);
    }
  }

  /**
    A jump that names the scopes around its loop leaves, by the code's test, exactly the scopes
    whose cleanups must run.
    */
  lemma JumpLeavesExactly(root: seq<Stmt>, at: Point, ss: seq<Stmt>, o: Outcome, t: Transfer)
    requires DistinctSeq(root) && SitsSeq(root, at, ss) && (o.Broke? || o.Continued?)
    requires (t.kind.ToBreak? || t.kind.ToContinue?) && t.targetScopes == ScopesAt(Taker(at, o))
    ensures forall f :: f in ScopesAt(at) ==>
            (LeavesScope(t, f) <==> exists i :: 0 <= i < |Passed(at, o)| && Passed(at, o)[i].scope == f)
  {
    hide DistinctSeq, SitsSeq, Taker, Passed, ScopesAt;
    PointScopes(root, at, ss);
    ScopesLeft(at, o);
    var all, outer, ps := ScopesAt(at), ScopesAt(Taker(at, o)), Passed(at, o);
    forall f | f in all ensures LeavesScope(t, f) <==> exists i :: 0 <= i < |ps| && ps[i].scope == f {
      var j :| 0 <= j < |all| && all[j] == f;
      if j < |outer| {
        assert outer[j] == f;
        forall i | 0 <= i < |ps| ensures ps[i].scope != f {
          assert all[|all| - 1 - i] == ps[i].scope;
        }
      } else {
        assert ps[|all| - 1 - j].scope == f;
        forall i | 0 <= i < |outer| ensures outer[i] != f {
          assert outer[i] == all[i];
        }
      }
    }
  }
}
