/** Where each `try..finally` sits in a routine: a static reading of the syntax. */
module ScopePlacement {
  import opened PascalSyntax

  /** The cleanup scopes around a point, and how many loops, handler dispatches, exception levels and handlers. */
  datatype Depths = Depths(scopes: seq<ScopeId>, loops: nat, dispatch: nat, levels: nat, handled: nat) {
    function InTry(f: ScopeId): Depths { this.(scopes := scopes + [f], levels := levels + 1) }
    function InCleanup(): Depths { this.(levels := levels + 1) }
    function InLoop(): Depths { this.(loops := loops + 1) }
    function InGuarded(): Depths { this.(dispatch := dispatch + 1, levels := levels + 1) }
    function InHandler(): Depths { this.(handled := handled + 1, levels := levels + 1) }
  }

  /** The cleanup of one `try..finally` and the point where it sits. */
  datatype Placement = Placement(cleanup: seq<Stmt>, at: Depths)

  /** A reference and the scopes whose bodies it occurs in. */
  datatype Home = Home(id: StmtId, scopes: seq<ScopeId>)

  /** Every `try..finally` and every reference with its place. */
  datatype Placements = Placements(cleanups: map<ScopeId, Placement>, homes: set<Home>) {
    ghost function Merge(other: Placements): Placements {
      Placements(cleanups + other.cleanups, homes + other.homes)
    }
  }

  /** The references that a statement itself visits. */
  function OwnIds(s: Stmt): set<StmtId> {
    match s
    case Block(_) => {}
    case TryFinally(_, _, _) => {}
    case TryExcept(_, _) => {}
    case Repeat(a, b, _) => {a, b}
    case _ => {s.id}
  }

  ghost function OwnHomes(s: Stmt, at: Depths): set<Home> {
    set id | id in OwnIds(s) :: Home(id, at.scopes)
  }

  // ---- The scopes of a statement

  ghost function ScopesIn(s: Stmt): set<ScopeId> {
    match s
    case Block(b) => ScopesInSeq(b)
    case IfElse(_, t, f) => ScopesInSeq(t) + ScopesInSeq(f)
    case IfOnly(_, t) => ScopesInSeq(t)
    case Loop(_, b) => ScopesInSeq(b)
    case Repeat(_, _, b) => ScopesInSeq(b)
    case Case(_, arms, fallback) =>
      ScopesInArms(arms) + if fallback.Fallback? then ScopesInSeq(fallback.body) else {}
    case With(_, b) => ScopesInSeq(b)
    case TryFinally(f, b, c) => {f} + ScopesInSeq(b) + ScopesInSeq(c)
    case TryExcept(b, hs) => ScopesInSeq(b) + ScopesInHandlers(hs)
    case _ => {}
  }

  ghost function ScopesInSeq(ss: seq<Stmt>): set<ScopeId> {
    if ss == [] then {} else ScopesInSeq(ss[..|ss| - 1]) + ScopesIn(ss[|ss| - 1])
  }

  ghost function ScopesInArms(arms: seq<Arm>): set<ScopeId> {
    if arms == [] then {} else ScopesInArms(arms[..|arms| - 1]) + ScopesInSeq(arms[|arms| - 1].body)
  }

  ghost function ScopesInHandlers(hs: seq<Handler>): set<ScopeId> {
    if hs == [] then {} else ScopesInHandlers(hs[..|hs| - 1]) + ScopesInSeq(hs[|hs| - 1].body)
  }

  /** Different `try..finally` statements have different identities. */
  ghost predicate Distinct(s: Stmt) {
    match s
    case Block(b) => DistinctSeq(b)
    case IfElse(_, t, f) => DistinctSeq(t) && DistinctSeq(f) && ScopesInSeq(t) !! ScopesInSeq(f)
    case IfOnly(_, t) => DistinctSeq(t)
    case Loop(_, b) => DistinctSeq(b)
    case Repeat(_, _, b) => DistinctSeq(b)
    case Case(_, arms, fallback) =>
      && DistinctArms(arms)
      && (fallback.Fallback? ==> DistinctSeq(fallback.body) && ScopesInArms(arms) !! ScopesInSeq(fallback.body))
    case With(_, b) => DistinctSeq(b)
    case TryFinally(f, b, c) =>
      && DistinctSeq(b) && DistinctSeq(c)
      && f !in ScopesInSeq(b) && f !in ScopesInSeq(c) && ScopesInSeq(b) !! ScopesInSeq(c)
    case TryExcept(b, hs) => DistinctSeq(b) && DistinctHandlers(hs) && ScopesInSeq(b) !! ScopesInHandlers(hs)
    case _ => true
  }

  ghost predicate DistinctSeq(ss: seq<Stmt>) {
    ss == [] ||
    (&& DistinctSeq(ss[..|ss| - 1])
     && Distinct(ss[|ss| - 1])
     && ScopesInSeq(ss[..|ss| - 1]) !! ScopesIn(ss[|ss| - 1]))
  }

  ghost predicate DistinctArms(arms: seq<Arm>) {
    arms == [] ||
    (&& DistinctArms(arms[..|arms| - 1])
     && DistinctSeq(arms[|arms| - 1].body)
     && ScopesInArms(arms[..|arms| - 1]) !! ScopesInSeq(arms[|arms| - 1].body))
  }

  ghost predicate DistinctHandlers(hs: seq<Handler>) {
    hs == [] ||
    (&& DistinctHandlers(hs[..|hs| - 1])
     && DistinctSeq(hs[|hs| - 1].body)
     && ScopesInHandlers(hs[..|hs| - 1]) !! ScopesInSeq(hs[|hs| - 1].body))
  }

  // ---- Placements

  /** Every scope of the statement is recorded with its cleanup and its place. */
  ghost predicate Placed(s: Stmt, at: Depths, p: Placements) {
    && OwnHomes(s, at) <= p.homes
    && match s
       case Block(b) => PlacedSeq(b, at, p)
       case IfElse(_, t, f) => PlacedSeq(t, at, p) && PlacedSeq(f, at, p)
       case IfOnly(_, t) => PlacedSeq(t, at, p)
       case Loop(_, b) => PlacedSeq(b, at.InLoop(), p)
       case Repeat(_, _, b) => PlacedSeq(b, at.InLoop(), p)
       case Case(_, arms, fallback) =>
         PlacedArms(arms, at, p) && (fallback.Fallback? ==> PlacedSeq(fallback.body, at, p))
       case With(_, b) => PlacedSeq(b, at, p)
       case TryFinally(f, b, c) =>
         && f in p.cleanups && p.cleanups[f] == Placement(c, at)
         && PlacedSeq(b, at.InTry(f), p)
         && PlacedSeq(c, at.InCleanup(), p)
       case TryExcept(b, hs) => PlacedSeq(b, at.InGuarded(), p) && PlacedHandlers(hs, at.InHandler(), p)
       case _ => true
  }

  ghost predicate PlacedSeq(ss: seq<Stmt>, at: Depths, p: Placements) {
    ss == [] || (PlacedSeq(ss[..|ss| - 1], at, p) && Placed(ss[|ss| - 1], at, p))
  }

  ghost predicate PlacedArms(arms: seq<Arm>, at: Depths, p: Placements) {
    arms == [] || (PlacedArms(arms[..|arms| - 1], at, p) && PlacedSeq(arms[|arms| - 1].body, at, p))
  }

  ghost predicate PlacedHandlers(hs: seq<Handler>, at: Depths, p: Placements) {
    hs == [] || (PlacedHandlers(hs[..|hs| - 1], at, p) && PlacedSeq(hs[|hs| - 1].body, at, p))
  }

  /** One element of a sequence, seen from the parts that the walk has and has not reached. */
  lemma {:induction false} SeqElement(ss: seq<Stmt>, at: Depths, p: Placements, i: nat)
    requires i < |ss| && DistinctSeq(ss) && PlacedSeq(ss, at, p)
    ensures Distinct(ss[i]) && Placed(ss[i], at, p)
    ensures ScopesInSeq(ss[..i]) !! ScopesIn(ss[i])
    ensures ScopesInSeq(ss[..i + 1]) == ScopesInSeq(ss[..i]) + ScopesIn(ss[i]) <= ScopesInSeq(ss)
    decreases |ss|
  {
    var n := |ss| - 1;
    if i < n {
      SeqElement(ss[..n], at, p, i);
      assert ss[..n][..i] == ss[..i] && ss[..n][..i + 1] == ss[..i + 1];
    } else {
      assert ss[..i + 1] == ss;
    }
  }

  lemma OwnPlaced(s: Stmt, at: Depths, p: Placements)
    requires Placed(s, at, p)
    ensures OwnHomes(s, at) <= p.homes
    ensures !s.Block? && !s.TryFinally? && !s.TryExcept? && !s.Repeat? ==> Home(s.id, at.scopes) in p.homes
  {
    if !s.Block? && !s.TryFinally? && !s.TryExcept? && !s.Repeat? {
      assert s.id in OwnIds(s);
    }
  }

  lemma RepeatPlaced(s: Stmt, at: Depths, p: Placements)
    requires s.Repeat? && OwnHomes(s, at) <= p.homes
    ensures Home(s.keyword, at.scopes) in p.homes && Home(s.condition, at.scopes) in p.homes
  {
    assert s.keyword in OwnIds(s) && s.condition in OwnIds(s);
  }

  lemma IfElseParts(s: Stmt, at: Depths, p: Placements)
    requires s.IfElse? && Distinct(s) && Placed(s, at, p)
    ensures DistinctSeq(s.thenBody) && PlacedSeq(s.thenBody, at, p)
    ensures DistinctSeq(s.elseBody) && PlacedSeq(s.elseBody, at, p)
    ensures ScopesInSeq(s.thenBody) !! ScopesInSeq(s.elseBody)
    ensures ScopesIn(s) == ScopesInSeq(s.thenBody) + ScopesInSeq(s.elseBody)
  {}

  lemma LoopParts(s: Stmt, at: Depths, p: Placements)
    requires (s.Loop? || s.Repeat?) && Distinct(s) && Placed(s, at, p)
    ensures DistinctSeq(s.body) && PlacedSeq(s.body, at.InLoop(), p) && ScopesIn(s) == ScopesInSeq(s.body)
  {}

  lemma BodyParts(s: Stmt, body: seq<Stmt>, at: Depths, p: Placements)
    requires s == Block(body) || (s.With? && body == s.body) || (s.IfOnly? && body == s.thenBody)
    requires Distinct(s) && Placed(s, at, p)
    ensures DistinctSeq(body) && PlacedSeq(body, at, p) && ScopesIn(s) == ScopesInSeq(body)
  {}

  lemma NoHandlerScopes(used: set<ScopeId>)
    ensures used + ScopesInHandlers([]) == used
  {}

  lemma TryExceptParts(s: Stmt, at: Depths, p: Placements)
    requires s.TryExcept? && Distinct(s) && Placed(s, at, p)
    ensures DistinctSeq(s.body) && PlacedSeq(s.body, at.InGuarded(), p) && ScopesInSeq(s.body) <= ScopesIn(s)
    ensures DistinctHandlers(s.handlers) && PlacedHandlers(s.handlers, at.InHandler(), p)
    ensures ScopesInHandlers(s.handlers) <= ScopesIn(s)
    ensures ScopesInSeq(s.body) !! ScopesInHandlers(s.handlers)
  {}

  lemma TryFinallyParts(s: Stmt, at: Depths, p: Placements)
    requires s.TryFinally? && Distinct(s) && Placed(s, at, p)
    ensures s.scope in p.cleanups && p.cleanups[s.scope] == Placement(s.cleanup, at)
    ensures DistinctSeq(s.body) && PlacedSeq(s.body, at.InTry(s.scope), p)
    ensures DistinctSeq(s.cleanup) && PlacedSeq(s.cleanup, at.InCleanup(), p)
    ensures s.scope !in ScopesInSeq(s.body) && s.scope !in ScopesInSeq(s.cleanup)
    ensures ScopesInSeq(s.body) !! ScopesInSeq(s.cleanup)
    ensures ScopesIn(s) == {s.scope} + ScopesInSeq(s.body) + ScopesInSeq(s.cleanup)
  {}

  lemma CaseParts(s: Stmt, at: Depths, p: Placements)
    requires s.Case? && Distinct(s) && Placed(s, at, p)
    ensures DistinctArms(s.arms) && PlacedArms(s.arms, at, p) && ScopesInArms(s.arms) <= ScopesIn(s)
    ensures s.fallback.Fallback? ==>
              && DistinctSeq(s.fallback.body) && PlacedSeq(s.fallback.body, at, p)
              && ScopesInArms(s.arms) !! ScopesInSeq(s.fallback.body)
              && ScopesInSeq(s.fallback.body) <= ScopesIn(s)
  {}

  lemma {:induction false} ArmElement(arms: seq<Arm>, at: Depths, p: Placements, i: nat)
    requires i < |arms| && DistinctArms(arms) && PlacedArms(arms, at, p)
    ensures DistinctSeq(arms[i].body) && PlacedSeq(arms[i].body, at, p)
    ensures ScopesInArms(arms[..i]) !! ScopesInSeq(arms[i].body)
    ensures ScopesInArms(arms[..i + 1]) == ScopesInArms(arms[..i]) + ScopesInSeq(arms[i].body) <= ScopesInArms(arms)
    decreases |arms|
  {
    var n := |arms| - 1;
    if i < n {
      ArmElement(arms[..n], at, p, i);
      assert arms[..n][..i] == arms[..i] && arms[..n][..i + 1] == arms[..i + 1];
    } else {
      assert arms[..i + 1] == arms;
    }
  }

  lemma {:induction false} HandlerElement(hs: seq<Handler>, at: Depths, p: Placements, i: nat)
    requires i < |hs| && DistinctHandlers(hs) && PlacedHandlers(hs, at, p)
    ensures DistinctSeq(hs[i].body) && PlacedSeq(hs[i].body, at, p)
    ensures ScopesInHandlers(hs[..i]) !! ScopesInSeq(hs[i].body)
    ensures ScopesInHandlers(hs[..i + 1]) == ScopesInHandlers(hs[..i]) + ScopesInSeq(hs[i].body) <= ScopesInHandlers(hs)
    decreases |hs|
  {
    var n := |hs| - 1;
    if i < n {
      HandlerElement(hs[..n], at, p, i);
      assert hs[..n][..i] == hs[..i] && hs[..n][..i + 1] == hs[..i + 1];
    } else {
      assert hs[..i + 1] == hs;
    }
  }

  // ---- Distinct scopes can be placed

  ghost function Nothing(): Placements {
    Placements(map[], {})
  }

  ghost function Collect(s: Stmt, at: Depths): Placements {
    var inner :=
      match s
      case Block(b) => CollectSeq(b, at)
      case IfElse(_, t, f) => CollectSeq(t, at).Merge(CollectSeq(f, at))
      case IfOnly(_, t) => CollectSeq(t, at)
      case Loop(_, b) => CollectSeq(b, at.InLoop())
      case Repeat(_, _, b) => CollectSeq(b, at.InLoop())
      case Case(_, arms, fallback) =>
        CollectArms(arms, at).Merge(if fallback.Fallback? then CollectSeq(fallback.body, at) else Nothing())
      case With(_, b) => CollectSeq(b, at)
      case TryFinally(f, b, c) =>
        CollectSeq(b, at.InTry(f)).Merge(CollectSeq(c, at.InCleanup())).Merge(Placements(map[f := Placement(c, at)],
            {}))
      case TryExcept(b, hs) => CollectSeq(b, at.InGuarded()).Merge(CollectHandlers(hs, at.InHandler()))
      case _ => Nothing();
    inner.Merge(Placements(map[], OwnHomes(s, at)))
  }

  ghost function CollectSeq(ss: seq<Stmt>, at: Depths): Placements {
    if ss == [] then Nothing() else CollectSeq(ss[..|ss| - 1], at).Merge(Collect(ss[|ss| - 1], at))
  }

  ghost function CollectArms(arms: seq<Arm>, at: Depths): Placements {
    if arms == [] then Nothing() else CollectArms(arms[..|arms| - 1], at).Merge(CollectSeq(arms[|arms| - 1].body, at))
  }

  ghost function CollectHandlers(hs: seq<Handler>, at: Depths): Placements {
    if hs == [] then Nothing() else CollectHandlers(hs[..|hs| - 1], at).Merge(CollectSeq(hs[|hs| - 1].body, at))
  }

  /** `p` has what `q` has. */
  ghost predicate Covers(p: Placements, q: Placements) {
    && q.homes <= p.homes
    && forall f :: f in q.cleanups ==> f in p.cleanups && p.cleanups[f] == q.cleanups[f]
  }

  lemma {:induction false} CollectKeys(s: Stmt, at: Depths)
    ensures Collect(s, at).cleanups.Keys == ScopesIn(s)
    decreases s
  {
    hide CollectSeq, CollectArms, CollectHandlers, ScopesInSeq, ScopesInArms, ScopesInHandlers, OwnHomes;
    match s
    case Block(b) => CollectSeqKeys(b, at);
    case IfElse(_, t, f) => CollectSeqKeys(t, at); CollectSeqKeys(f, at);
    case IfOnly(_, t) => CollectSeqKeys(t, at);
    case Loop(_, b) => CollectSeqKeys(b, at.InLoop());
    case Repeat(_, _, b) => CollectSeqKeys(b, at.InLoop());
    case Case(_, arms, fallback) =>
      CollectArmsKeys(arms, at);
      if fallback.Fallback? {
        CollectSeqKeys(fallback.body, at);
      }
    case With(_, b) => CollectSeqKeys(b, at);
    case TryFinally(f, b, c) => CollectSeqKeys(b, at.InTry(f)); CollectSeqKeys(c, at.InCleanup());
    case TryExcept(b, hs) => CollectSeqKeys(b, at.InGuarded()); CollectHandlersKeys(hs, at.InHandler());
    case _ =>
  }

  lemma {:induction false} CollectSeqKeys(ss: seq<Stmt>, at: Depths)
    ensures CollectSeq(ss, at).cleanups.Keys == ScopesInSeq(ss)
    decreases ss
  {
    if ss != [] {
      CollectSeqKeys(ss[..|ss| - 1], at);
      CollectKeys(ss[|ss| - 1], at);
    }
  }

  lemma {:induction false} CollectArmsKeys(arms: seq<Arm>, at: Depths)
    ensures CollectArms(arms, at).cleanups.Keys == ScopesInArms(arms)
    decreases arms
  {
    if arms != [] {
      CollectArmsKeys(arms[..|arms| - 1], at);
      CollectSeqKeys(arms[|arms| - 1].body, at);
    }
  }

  lemma {:induction false} CollectHandlersKeys(hs: seq<Handler>, at: Depths)
    ensures CollectHandlers(hs, at).cleanups.Keys == ScopesInHandlers(hs)
    decreases hs
  {
    if hs != [] {
      CollectHandlersKeys(hs[..|hs| - 1], at);
      CollectSeqKeys(hs[|hs| - 1].body, at);
    }
  }

  /** A routine whose scopes are distinct is placed by what it collects. */
  lemma {:induction false} CollectPlaces(s: Stmt, at: Depths, p: Placements)
    requires Distinct(s) && Covers(p, Collect(s, at))
    ensures Placed(s, at, p)
    decreases s
  {
    hide CollectSeq, CollectArms, CollectHandlers, ScopesInSeq, ScopesInArms, ScopesInHandlers, PlacedSeq;
    hide PlacedArms, PlacedHandlers, OwnHomes;
    hide DistinctSeq, DistinctArms, DistinctHandlers;
    match s
    case Block(b) => CollectSeqPlaces(b, at, p);
    case IfElse(_, t, f) =>
      CollectSeqKeys(t, at);
      CollectSeqKeys(f, at);
      CollectSeqPlaces(t, at, p);
      CollectSeqPlaces(f, at, p);
    case IfOnly(_, t) => CollectSeqPlaces(t, at, p);
    case Loop(_, b) => CollectSeqPlaces(b, at.InLoop(), p);
    case Repeat(_, _, b) => CollectSeqPlaces(b, at.InLoop(), p);
    case Case(_, arms, fallback) =>
      CollectArmsKeys(arms, at);
      if fallback.Fallback? {
        CollectSeqKeys(fallback.body, at);
        CollectSeqPlaces(fallback.body, at, p);
      }
      CollectArmsPlaces(arms, at, p);
    case With(_, b) => CollectSeqPlaces(b, at, p);
    case TryFinally(f, b, c) =>
      CollectSeqKeys(b, at.InTry(f));
      CollectSeqKeys(c, at.InCleanup());
      CollectSeqPlaces(b, at.InTry(f), p);
      CollectSeqPlaces(c, at.InCleanup(), p);
    case TryExcept(b, hs) =>
      CollectSeqKeys(b, at.InGuarded());
      CollectHandlersKeys(hs, at.InHandler());
      CollectSeqPlaces(b, at.InGuarded(), p);
      CollectHandlersPlaces(hs, at.InHandler(), p);
    case _ =>
  }

  lemma {:induction false} CollectSeqPlaces(ss: seq<Stmt>, at: Depths, p: Placements)
    requires DistinctSeq(ss) && Covers(p, CollectSeq(ss, at))
    ensures PlacedSeq(ss, at, p)
    decreases ss
  {
    if ss != [] {
      CollectSeqKeys(ss[..|ss| - 1], at);
      CollectKeys(ss[|ss| - 1], at);
      CollectSeqPlaces(ss[..|ss| - 1], at, p);
      CollectPlaces(ss[|ss| - 1], at, p);
    }
  }

  lemma {:induction false} CollectArmsPlaces(arms: seq<Arm>, at: Depths, p: Placements)
    requires DistinctArms(arms) && Covers(p, CollectArms(arms, at))
    ensures PlacedArms(arms, at, p)
    decreases arms
  {
    if arms != [] {
      CollectArmsKeys(arms[..|arms| - 1], at);
      CollectSeqKeys(arms[|arms| - 1].body, at);
      CollectArmsPlaces(arms[..|arms| - 1], at, p);
      CollectSeqPlaces(arms[|arms| - 1].body, at, p);
    }
  }

  lemma {:induction false} CollectHandlersPlaces(hs: seq<Handler>, at: Depths, p: Placements)
    requires DistinctHandlers(hs) && Covers(p, CollectHandlers(hs, at))
    ensures PlacedHandlers(hs, at, p)
    decreases hs
  {
    if hs != [] {
      CollectHandlersKeys(hs[..|hs| - 1], at);
      CollectSeqKeys(hs[|hs| - 1].body, at);
      CollectHandlersPlaces(hs[..|hs| - 1], at, p);
      CollectSeqPlaces(hs[|hs| - 1].body, at, p);
    }
  }
}
