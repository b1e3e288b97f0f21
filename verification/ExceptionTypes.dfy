/**
  Exception-type facts and handler matching.

  A raised exception carries a fact about its runtime class. Matching a fact against a
  handler is three-valued. Name resolution is abstracted: the index maps a class to what is
  known about its parent.
  */
module ExceptionTypes {

  type TypeId = nat

  /** What is known about the class of a raised exception. */
  datatype Fact = Known(id: TypeId) | SubtypeOf(id: TypeId) | Unknown

  /** The answer to "does this handler catch this exception?". */
  datatype TypeMatch = Yes | No | Undecided

  /** A class without a parent, with a resolved parent, or with an unusable declaration. */
  datatype ParentType = NoParent | Parent(id: TypeId) | Unresolved

  datatype TypeIndex = TypeIndex(parents: map<TypeId, ParentType>)

  // ---- The walk along the parent chain

  /** The outcome of walking up from `current`, having already visited `seen`. */
  function SubtypeFrom(index: TypeIndex, current: TypeId, handler: TypeId, seen: set<TypeId>): TypeMatch
    decreases index.parents.Keys - seen
  {
    if current == handler then Yes
    else if current in seen || current !in index.parents then Undecided
    else
      match index.parents[current]
      case NoParent => No
      case Unresolved => Undecided
      case Parent(p) => SubtypeFrom(index, p, handler, seen + {current})
  }

  function IsSubtype(index: TypeIndex, raised: TypeId, handler: TypeId): TypeMatch {
    SubtypeFrom(index, raised, handler, {})
  }

  /** The loop that computes `IsSubtype`; it ends on cyclic declarations too. */
  method WalkParents(index: TypeIndex, raised: TypeId, handler: TypeId) returns (m: TypeMatch)
    ensures m == IsSubtype(index, raised, handler)
  {
    var current, seen := raised, {};
    while true
      invariant SubtypeFrom(index, current, handler, seen) == IsSubtype(index, raised, handler)
      decreases index.parents.Keys - seen
    {
      if current == handler {
        return Yes;
      }
      if current in seen || current !in index.parents {
        return Undecided;
      }
      match index.parents[current] {
        case NoParent => return No;
        case Unresolved => return Undecided;
        case Parent(p) => current, seen := p, seen + {current};
      }
    }
  }

  /** A bound matches when it is below the handler, and fails only when the two are unrelated. */
  function MatchSubtypeBound(index: TypeIndex, bound: TypeId, handler: TypeId): TypeMatch {
    match IsSubtype(index, bound, handler)
    case Yes => Yes
    case Undecided => Undecided
    case No => if IsSubtype(index, handler, bound) == No then No else Undecided
  }

  function MatchHandler(index: TypeIndex, raised: Fact, handler: Fact): TypeMatch {
    match (raised, handler)
    case (Known(r), Known(h)) => IsSubtype(index, r, h)
    case (SubtypeOf(b), Known(h)) => MatchSubtypeBound(index, b, h)
    case _ => Undecided
  }

  // ---- The fact known inside a typed handler

  /** The incoming facts that can reach a handler. */
  function Reaching(index: TypeIndex, handler: Fact, incoming: set<Fact>): set<Fact> {
    set f | f in incoming && MatchHandler(index, f, handler) != No
  }

  /** An exact class is kept when it is the only fact that can arrive. */
  ghost function HandlerContext(index: TypeIndex, handler: Fact, incoming: set<Fact>): Fact {
    if !handler.Known? then Unknown
    else if x: TypeId :| Reaching(index, handler, incoming) == {Known(x)} then Known(x)
    else SubtypeOf(handler.id)
  }

  function FactSet(facts: seq<Fact>): set<Fact> {
    set f | f in facts
  }

  /** The loop that computes the handler fact from the incoming facts in order. */
  method ComputeHandlerContext(index: TypeIndex, handler: Fact, incoming: seq<Fact>) returns (fact: Fact)
    ensures fact == HandlerContext(index, handler, FactSet(incoming))
  {
    if !handler.Known? {
      return Unknown;
    }
    var exact: set<TypeId> := {};
    var i := 0;
    while i < |incoming|
      invariant 0 <= i <= |incoming|
      invariant exact == {} || exists x :: exact == {x}
      invariant Reaching(index, handler, FactSet(incoming[..i])) == set x | x in exact :: Known(x)
    {
      ghost var before := Reaching(index, handler, FactSet(incoming[..i]));
      ghost var after := Reaching(index, handler, FactSet(incoming[..i + 1]));
      assert incoming[..i + 1] == incoming[..i] + [incoming[i]];
      var raised := incoming[i];
      if MatchHandler(index, raised, handler) != No {
        assert after == before + {raised};
        assert after <= Reaching(index, handler, FactSet(incoming));
        if !raised.Known? {
          return SubtypeOf(handler.id);
        }
        if exact != {} && raised.id !in exact {
          ghost var x :| exact == {x};
          assert Known(x) in after && Known(raised.id) in after;
          return SubtypeOf(handler.id);
        }
        exact := {raised.id};
      } else {
        assert after == before;
      }
      i := i + 1;
    }
    assert incoming[..i] == incoming;
    if exact == {} {
      return SubtypeOf(handler.id);
    }
    var x :| x in exact;
    assert exact == {x};
    return Known(x);
  }

  // ---- Meaning: the runtime class hierarchy

  /** The runtime hierarchy gives each class at most one direct superclass. */
  type Hierarchy = TypeId -> ParentType

  /** The hierarchy agrees with every declaration that the index resolved. */
  ghost predicate Agrees(world: Hierarchy, index: TypeIndex) {
    forall t :: t in index.parents && index.parents[t] != Unresolved ==> world(t) == index.parents[t]
  }

  /** `c` reaches `ancestor` in exactly `n` steps up. */
  ghost predicate Above(world: Hierarchy, c: TypeId, ancestor: TypeId, n: nat)
    decreases n
  {
    if n == 0 then c == ancestor
    else world(c).Parent? && Above(world, world(c).id, ancestor, n - 1)
  }

  ghost predicate Descends(world: Hierarchy, c: TypeId, ancestor: TypeId) {
    exists n: nat :: Above(world, c, ancestor, n)
  }

  /** The runtime classes that a fact allows. */
  ghost predicate Allows(world: Hierarchy, fact: Fact, c: TypeId) {
    match fact
    case Known(t) => c == t
    case SubtypeOf(t) => Descends(world, c, t)
    case Unknown => true
  }

  lemma {:induction false} AboveTransitive(world: Hierarchy, a: TypeId, b: TypeId, c: TypeId, n: nat, m: nat)
    requires Above(world, a, b, n) && Above(world, b, c, m)
    ensures Above(world, a, c, n + m)
    decreases n
  {
    if n > 0 {
      AboveTransitive(world, world(a).id, b, c, n - 1, m);
    }
  }

  lemma {:induction false} AboveComparable(world: Hierarchy, c: TypeId, a: TypeId, b: TypeId, n: nat, m: nat)
    requires Above(world, c, a, n) && Above(world, c, b, m) && n <= m
    ensures Above(world, a, b, m - n)
    decreases n
  {
    if n > 0 {
      AboveComparable(world, world(c).id, a, b, n - 1, m - 1);
    }
  }

  /** Two ancestors of one class are related: the hierarchy is single inheritance. */
  lemma AncestorsComparable(world: Hierarchy, c: TypeId, a: TypeId, b: TypeId)
    requires Descends(world, c, a) && Descends(world, c, b)
    ensures Descends(world, a, b) || Descends(world, b, a)
  {
    var n: nat :| Above(world, c, a, n);
    var m: nat :| Above(world, c, b, m);
    if n <= m {
      AboveComparable(world, c, a, b, n, m);
    } else {
      AboveComparable(world, c, b, a, m, n);
    }
  }

  lemma DescendsTransitive(world: Hierarchy, a: TypeId, b: TypeId, c: TypeId)
    requires Descends(world, a, b) && Descends(world, b, c)
    ensures Descends(world, a, c)
  {
    var n: nat :| Above(world, a, b, n);
    var m: nat :| Above(world, b, c, m);
    AboveTransitive(world, a, b, c, n, m);
  }

  lemma {:induction false} SubtypeFromSound(
    world: Hierarchy, index: TypeIndex, current: TypeId, handler: TypeId, seen: set<TypeId>)
    requires Agrees(world, index)
    ensures SubtypeFrom(index, current, handler, seen) == Yes ==> Descends(world, current, handler)
    ensures SubtypeFrom(index, current, handler, seen) == No ==> !Descends(world, current, handler)
    decreases index.parents.Keys - seen
  {
    if current == handler {
      assert Above(world, current, handler, 0);
    } else if current !in seen && current in index.parents {
      match index.parents[current] {
        case NoParent =>
          assert world(current) == NoParent;
        case Unresolved =>
        case Parent(p) =>
          SubtypeFromSound(world, index, p, handler, seen + {current});
          assert world(current) == Parent(p);
          if Descends(world, p, handler) {
            var n: nat :| Above(world, p, handler, n);
            assert Above(world, current, handler, n + 1);
          }
          if Descends(world, current, handler) {
            var n: nat :| Above(world, current, handler, n);
            assert Above(world, p, handler, n - 1);
          }
      }
    }
  }

  /** Three-valued soundness for every runtime class that the raised fact allows. */
  lemma MatchHandlerSound(world: Hierarchy, index: TypeIndex, raised: Fact, handler: TypeId, c: TypeId)
    requires Agrees(world, index)
    requires Allows(world, raised, c)
    ensures MatchHandler(index, raised, Known(handler)) == Yes ==> Descends(world, c, handler)
    ensures MatchHandler(index, raised, Known(handler)) == No ==> !Descends(world, c, handler)
  {
    match raised {
      case Known(r) =>
        SubtypeFromSound(world, index, r, handler, {});
      case Unknown =>
      case SubtypeOf(b) =>
        SubtypeFromSound(world, index, b, handler, {});
        SubtypeFromSound(world, index, handler, b, {});
        if Descends(world, b, handler) {
          DescendsTransitive(world, c, b, handler);
        }
        if Descends(world, c, handler) {
          AncestorsComparable(world, c, b, handler);
        }
    }
  }

  /**
    The fact given to a typed handler covers every class that the handler really catches:
    the class arrived under some incoming fact and descends from the handler's class.
    */
  lemma HandlerContextCovers(
    world: Hierarchy, index: TypeIndex, handler: TypeId, incoming: set<Fact>, raised: Fact, c: TypeId)
    requires Agrees(world, index)
    requires raised in incoming && Allows(world, raised, c)
    requires Descends(world, c, handler)
    ensures Allows(world, HandlerContext(index, Known(handler), incoming), c)
  {
    MatchHandlerSound(world, index, raised, handler, c);
    assert raised in Reaching(index, Known(handler), incoming);
  }

  // ---- When the walk gives a definite answer

  /** The first `n` classes of the chain are resolved and differ from the handler. */
  ghost predicate Climbs(index: TypeIndex, c: TypeId, handler: TypeId, n: nat, top: TypeId)
    decreases n
  {
    if n == 0 then c == top
    else c != handler && c in index.parents && index.parents[c].Parent?
         && Climbs(index, index.parents[c].id, handler, n - 1, top)
  }

  /** The declared chain of `c` comes to the handler. */
  ghost predicate ComesTo(index: TypeIndex, c: TypeId, handler: TypeId) {
    exists n: nat :: Climbs(index, c, handler, n, handler)
  }

  /** The declared chain of `c` ends at a class without a parent, without the handler on it. */
  ghost predicate EndsWithout(index: TypeIndex, c: TypeId, handler: TypeId) {
    exists n: nat, top: TypeId :: Climbs(index, c, handler, n, top) && IsTop(index, top, handler)
  }

  ghost predicate IsTop(index: TypeIndex, c: TypeId, handler: TypeId) {
    c != handler && c in index.parents && index.parents[c].NoParent?
  }

  lemma {:induction false} ClimbsAppend(
    index: TypeIndex, a: TypeId, b: TypeId, c: TypeId, handler: TypeId, n: nat, m: nat)
    requires Climbs(index, a, handler, n, b) && Climbs(index, b, handler, m, c)
    ensures Climbs(index, a, handler, n + m, c)
    decreases n
  {
    if n > 0 {
      ClimbsAppend(index, index.parents[a].id, b, c, handler, n - 1, m);
    }
  }

  lemma {:induction false} ClimbsSplit(
    index: TypeIndex, a: TypeId, c: TypeId, handler: TypeId, n: nat, b: TypeId, m: nat)
    requires Climbs(index, a, handler, n, b) && Climbs(index, a, handler, m, c) && n <= m
    ensures Climbs(index, b, handler, m - n, c)
    decreases n
  {
    if n > 0 {
      ClimbsSplit(index, index.parents[a].id, c, handler, n - 1, b, m - 1);
    }
  }

  /** A chain that returns to its start never settles. */
  lemma {:induction false} CycleNeverSettles(index: TypeIndex, a: TypeId, handler: TypeId, n: nat, m: nat, top: TypeId)
    requires n > 0 && Climbs(index, a, handler, n, a)
    requires Climbs(index, a, handler, m, top)
    ensures top != handler && top in index.parents && index.parents[top].Parent?
    decreases m
  {
    if m >= n {
      ClimbsSplit(index, a, top, handler, n, a, m);
      CycleNeverSettles(index, a, handler, n, m - n, top);
    } else {
      ClimbsSplit(index, a, a, handler, m, top, n);
    }
  }

  /** The chain leads from `s` to `current` in at least one step. */
  ghost predicate LeadsTo(index: TypeIndex, handler: TypeId, s: TypeId, current: TypeId) {
    exists k: nat :: k > 0 && Climbs(index, s, handler, k, current)
  }

  /** From a class to its parent and back, nothing changes. */
  lemma ParentDecides(index: TypeIndex, c: TypeId, handler: TypeId)
    requires c != handler && c in index.parents && index.parents[c].Parent?
    ensures ComesTo(index, c, handler) <==> ComesTo(index, index.parents[c].id, handler)
    ensures EndsWithout(index, c, handler) <==> EndsWithout(index, index.parents[c].id, handler)
  {
    var p := index.parents[c].id;
    if n: nat :| Climbs(index, p, handler, n, handler) {
      assert Climbs(index, c, handler, n + 1, handler);
    }
    if n: nat :| Climbs(index, c, handler, n, handler) {
      assert Climbs(index, p, handler, n - 1, handler);
    }
    if n: nat, top: TypeId :| Climbs(index, p, handler, n, top) && IsTop(index, top, handler) {
      assert Climbs(index, c, handler, n + 1, top);
    }
    if n: nat, top: TypeId :| Climbs(index, c, handler, n, top) && IsTop(index, top, handler) {
      assert Climbs(index, p, handler, n - 1, top);
    }
  }

  /** A class that stands for itself: the handler, a class without a parent, or one that leads nowhere. */
  lemma LastDecides(index: TypeIndex, c: TypeId, handler: TypeId)
    requires c == handler || c !in index.parents || !index.parents[c].Parent?
    ensures ComesTo(index, c, handler) <==> c == handler
    ensures EndsWithout(index, c, handler) <==> IsTop(index, c, handler)
  {
    assert Climbs(index, c, handler, 0, c);
  }

  lemma {:induction false} SubtypeFromDecides(
    index: TypeIndex, current: TypeId, handler: TypeId, seen: set<TypeId>)
    requires forall s :: s in seen ==> LeadsTo(index, handler, s, current)
    ensures SubtypeFrom(index, current, handler, seen) == Yes <==> ComesTo(index, current, handler)
    ensures SubtypeFrom(index, current, handler, seen) == No <==> EndsWithout(index, current, handler)
    decreases index.parents.Keys - seen
  {
    if current != handler && current in seen {
      var k: nat :| k > 0 && Climbs(index, current, handler, k, current);
      forall n: nat, top: TypeId | Climbs(index, current, handler, n, top)
        ensures top != handler && !IsTop(index, top, handler)
      {
        CycleNeverSettles(index, current, handler, k, n, top);
      }
    } else if current != handler && current in index.parents && index.parents[current].Parent? {
      var p := index.parents[current].id;
      assert Climbs(index, p, handler, 0, p);
      assert Climbs(index, current, handler, 1, p);
      forall s | s in seen + {current} ensures LeadsTo(index, handler, s, p) {
        if s in seen {
          var k: nat :| k > 0 && Climbs(index, s, handler, k, current);
          ClimbsAppend(index, s, current, p, handler, k, 1);
          assert k + 1 > 0 && Climbs(index, s, handler, k + 1, p);
        }
      }
      SubtypeFromDecides(index, p, handler, seen + {current});
      ParentDecides(index, current, handler);
    } else {
      LastDecides(index, current, handler);
    }
  }

  /** The walk gives each definite answer exactly when the declared chain settles it; cycles never do. */
  lemma IsSubtypeDecides(index: TypeIndex, raised: TypeId, handler: TypeId)
    ensures IsSubtype(index, raised, handler) == Yes <==> ComesTo(index, raised, handler)
    ensures IsSubtype(index, raised, handler) == No <==> EndsWithout(index, raised, handler)
  {
    SubtypeFromDecides(index, raised, handler, {});
  }

  /** The declarations alone say that every class the fact allows is caught. */
  ghost predicate SurelyCaught(index: TypeIndex, raised: Fact, handler: TypeId) {
    match raised
    case Known(r) => ComesTo(index, r, handler)
    case SubtypeOf(b) => ComesTo(index, b, handler)
    case Unknown => false
  }

  /** They say that none is: the chain of an exact class passes the handler by; a bound must be unrelated to it. */
  ghost predicate SurelyMissed(index: TypeIndex, raised: Fact, handler: TypeId) {
    match raised
    case Known(r) => EndsWithout(index, r, handler)
    case SubtypeOf(b) => EndsWithout(index, b, handler) && EndsWithout(index, handler, b)
    case Unknown => false
  }

  /** Matching is definite exactly when the declarations settle it. */
  lemma MatchHandlerExact(index: TypeIndex, raised: Fact, handler: Fact)
    ensures MatchHandler(index, raised, handler) == Yes <==>
              handler.Known? && SurelyCaught(index, raised, handler.id)
    ensures MatchHandler(index, raised, handler) == No <==>
              handler.Known? && SurelyMissed(index, raised, handler.id)
  {
    if !raised.Unknown? && handler.Known? {
      IsSubtypeDecides(index, raised.id, handler.id);
      IsSubtypeDecides(index, handler.id, raised.id);
    }
  }

  /** The exact class is kept when it arrives and every other incoming fact is surely missed. */
  ghost predicate OnlyArrival(index: TypeIndex, handler: TypeId, incoming: set<Fact>, c: TypeId) {
    && Known(c) in incoming && !EndsWithout(index, c, handler)
    && forall f :: f in incoming && f != Known(c) ==> SurelyMissed(index, f, handler)
  }

  lemma HandlerContextExact(index: TypeIndex, handler: Fact, incoming: set<Fact>)
    ensures var fact := HandlerContext(index, handler, incoming);
            if !handler.Known? then fact == Unknown
            else if exists c :: OnlyArrival(index, handler.id, incoming, c) then
              fact.Known? && OnlyArrival(index, handler.id, incoming, fact.id)
            else fact == SubtypeOf(handler.id)
  {
    if handler.Known? {
      forall f ensures MatchHandler(index, f, handler) == No <==> SurelyMissed(index, f, handler.id) {
        MatchHandlerExact(index, f, handler);
      }
      var reaching := Reaching(index, handler, incoming);
      forall c | OnlyArrival(index, handler.id, incoming, c) ensures reaching == {Known(c)} {
        assert !SurelyMissed(index, Known(c), handler.id);
      }
      forall c | reaching == {Known(c)} ensures OnlyArrival(index, handler.id, incoming, c) {
        assert Known(c) in reaching && !SurelyMissed(index, Known(c), handler.id);
        forall f | f in incoming && f != Known(c) ensures SurelyMissed(index, f, handler.id) {
          assert f !in reaching;
        }
      }
    }
  }
}
