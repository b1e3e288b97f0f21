/** Abrupt control transfers that wait to be routed, and the keys under which they are grouped. */
module PendingTransfers {
  import opened ExceptionTypes
  import opened PascalSyntax
  import opened StructuredRuns
  import opened ControlFlowGraph

  datatype TransferKind = ToExit | ToBreak | ToContinue | ToException

  datatype Transfer = Transfer(
    source: BlockId,
    kind: TransferKind,
    target: Option<BlockId>,
    targetScopes: seq<ScopeId>,
    fromFinally: bool,
    fact: Option<Fact>,
    spelling: Option<string>)

  function ExitTransfer(source: BlockId): Transfer {
    Transfer(source, ToExit, None, [], false, None, None)
  }

  function BlockTransfer(source: BlockId, kind: TransferKind, target: BlockId, scopes: seq<ScopeId>): Transfer {
    Transfer(source, kind, Some(target), scopes, false, None, None)
  }

  function ExceptionTransfer(source: BlockId, fact: Fact, spelling: Option<string>): Transfer {
    Transfer(source, ToException, None, [], false, Some(fact), spelling)
  }

  /** Must this transfer pass through the finalizer of `scope`? */
  predicate LeavesScope(t: Transfer, scope: ScopeId) {
    t.kind.ToException? || t.kind.ToExit? || scope !in t.targetScopes
  }

  /** The same transfer, now leaving a finalizer that ended in `source`. */
  function WithSource(t: Transfer, source: BlockId): Transfer {
    t.(source := source, fromFinally := true)
  }

  /** The edge that completes a transfer. */
  function CompletionEdge(t: Transfer): EdgeKind {
    if t.fromFinally then FinallyExit else Normally
  }

  datatype LoopFrame = LoopFrame(
    continueTarget: BlockId,
    breakTarget: BlockId,
    continueScopes: seq<ScopeId>,
    breakScopes: seq<ScopeId>)

  /** The result of walking one statement: where it falls through and what stays pending. */
  datatype Flow = Flow(normal: Option<BlockId>, transfers: seq<Transfer>)

  // ---- Continuation identity

  /** What a finalizer resumes; the source block is not part of it. */
  datatype ContinuationKey = ContinuationKey(
    kind: TransferKind,
    target: Option<BlockId>,
    targetScopes: seq<ScopeId>,
    fact: Option<Fact>,
    spelling: Option<string>)

  function KeyOf(t: Transfer): ContinuationKey {
    ContinuationKey(t.kind, t.target, t.targetScopes, t.fact, LowerName(t.spelling))
  }

  /** The completion that a key stands for. */
  function OutcomeOf(key: ContinuationKey): Outcome {
    match key.kind
    case ToExit => Exited
    case ToBreak => Broke
    case ToContinue => Continued
    case ToException => Raised(if key.fact.Some? then key.fact.value else Unknown, key.spelling)
  }

  /** The one key that a completion has inside the loops `loops`: jumps go to the innermost loop. */
  function KeyFor(loops: seq<LoopFrame>, o: Outcome): ContinuationKey {
    match o
    case Normal => ContinuationKey(ToExit, None, [], None, None)
    case Exited => ContinuationKey(ToExit, None, [], None, None)
    case Broke =>
      if loops == [] then ContinuationKey(ToBreak, None, [], None, None)
      else
        var frame := loops[|loops| - 1];
        ContinuationKey(ToBreak, Some(frame.breakTarget), frame.breakScopes, None, None)
    case Continued =>
      if loops == [] then ContinuationKey(ToContinue, None, [], None, None)
      else
        var frame := loops[|loops| - 1];
        ContinuationKey(ToContinue, Some(frame.continueTarget), frame.continueScopes, None, None)
    case Raised(f, name) => ContinuationKey(ToException, None, [], Some(f), name)
  }

  function TransferOutcome(t: Transfer): Outcome {
    OutcomeOf(KeyOf(t))
  }

  /** The completions that a list of transfers stands for. */
  function Outcomes(ts: seq<Transfer>): set<Outcome> {
    set t | t in ts :: TransferOutcome(t)
  }

  lemma OutcomesAppend(a: seq<Transfer>, b: seq<Transfer>)
    ensures Outcomes(a + b) == Outcomes(a) + Outcomes(b)
  {
    assert forall t :: t in a + b <==> t in a || t in b;
    forall o | o in Outcomes(a) + Outcomes(b) ensures o in Outcomes(a + b) {
      if o in Outcomes(a) {
        var t :| t in a && TransferOutcome(t) == o;
        assert t in a + b;
      } else {
        var t :| t in b && TransferOutcome(t) == o;
        assert t in a + b;
      }
    }
  }

  /** The same letter in whatever case, or the same character. */
  predicate SameLetter(a: char, b: char) {
    a == b || ('A' <= a <= 'Z' && b as int == a as int + 32) || ('A' <= b <= 'Z' && a as int == b as int + 32)
  }

  predicate SameName(a: Option<string>, b: Option<string>) {
    match (a, b)
    case (None, None) => true
    case (Some(x), Some(y)) => |x| == |y| && forall i :: 0 <= i < |x| ==> SameLetter(x[i], y[i])
    case _ => false
  }

  /** Two transfers share their continuation exactly when they differ in source and spelling at most. */
  lemma SameContinuation(a: Transfer, b: Transfer)
    ensures KeyOf(a) == KeyOf(b) <==>
              && a.kind == b.kind && a.target == b.target && a.targetScopes == b.targetScopes && a.fact == b.fact
              && SameName(a.spelling, b.spelling)
  {
    if a.spelling.Some? && b.spelling.Some? {
      LowerSame(a.spelling.value, b.spelling.value);
    }
  }

  lemma LowerSame(a: string, b: string)
    ensures Lower(a) == Lower(b) <==> |a| == |b| && forall i :: 0 <= i < |a| ==> SameLetter(a[i], b[i])
  {
    forall x: char, y: char ensures LowerChar(x) == LowerChar(y) <==> SameLetter(x, y) {
    }
    hide LowerChar, SameLetter;
    if Lower(a) == Lower(b) {
      forall i | 0 <= i < |a| ensures SameLetter(a[i], b[i]) {
        assert Lower(a)[i] == LowerChar(a[i]) && Lower(b)[i] == LowerChar(b[i]);
      }
    }
  }
}
