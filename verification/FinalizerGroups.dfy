/** The completions that enter a finalizer, grouped by what they resume afterwards. */
module FinalizerGroups {
  import opened PascalSyntax
  import opened StructuredRuns
  import opened ControlFlowGraph
  import opened PendingTransfers

  datatype Input = FromEnd(end: BlockId) | FromTransfer(transfer: Transfer)

  datatype Group = Group(key: Option<ContinuationKey>, inputs: seq<Input>)

  function InputKey(x: Input): Option<ContinuationKey> {
    if x.FromEnd? then None else Some(KeyOf(x.transfer))
  }

  function InputSource(x: Input): BlockId {
    if x.FromEnd? then x.end else x.transfer.source
  }

  predicate Leaves(x: Input, f: ScopeId) {
    x.FromEnd? || LeavesScope(x.transfer, f)
  }

  /** The completion that is suspended while the finalizer runs. */
  function Suspends(continuation: Option<ContinuationKey>): Outcome {
    if continuation.None? then Normal else OutcomeOf(continuation.value)
  }

  /** The fall-through end first, then the transfers in order. */
  function Inputs(flow: Flow): seq<Input> {
    (if flow.normal.Some? then [FromEnd(flow.normal.value)] else [])
    + seq(|flow.transfers|, i requires 0 <= i < |flow.transfers| => FromTransfer(flow.transfers[i]))
  }

  lemma InputsOf(flow: Flow, x: Input)
    ensures x in Inputs(flow) <==> if x.FromEnd? then flow.normal == Some(x.end) else x.transfer in flow.transfers
  {
    var ends := if flow.normal.Some? then [FromEnd(flow.normal.value)] else [];
    var moves := seq(|flow.transfers|, i requires 0 <= i < |flow.transfers| => FromTransfer(flow.transfers[i]));
    assert x in Inputs(flow) <==> x in ends || x in moves;
    if x.FromTransfer? && x.transfer in flow.transfers {
      var i :| 0 <= i < |flow.transfers| && flow.transfers[i] == x.transfer;
      assert moves[i] == x;
    }
  }

  // ---- Duplicates

  /** Each transfer once, in the order of its first occurrence. */
  function Dedup(ts: seq<Transfer>): seq<Transfer> {
    if ts == [] then []
    else
      var n := |ts| - 1;
      var front := Dedup(ts[..n]);
      if ts[n] in front then front else front + [ts[n]]
  }

  lemma {:induction false} DedupSame(ts: seq<Transfer>, t: Transfer)
    ensures t in Dedup(ts) <==> t in ts
    decreases |ts|
  {
    if ts != [] {
      var n := |ts| - 1;
      DedupSame(ts[..n], t);
      assert t in ts <==> t in ts[..n] || t == ts[n];
    }
  }

  method DedupTransfers(ts: seq<Transfer>) returns (once: seq<Transfer>)
    ensures once == Dedup(ts)
    ensures (forall t :: t in once <==> t in ts) && forall i, j :: 0 <= i < j < |once| ==> once[i] != once[j]
  {
    once := [];
    var seen: set<Transfer> := {};
    var i := 0;
    while i < |ts|
      invariant 0 <= i <= |ts| && once == Dedup(ts[..i]) && seen == set t | t in once
      invariant forall i, j :: 0 <= i < j < |once| ==> once[i] != once[j]
    {
      assert ts[..i + 1][..i] == ts[..i];
      if ts[i] !in seen {
        seen := seen + {ts[i]};
        once := once + [ts[i]];
      }
      i := i + 1;
    }
    assert ts[..i] == ts;
    forall t ensures t in once <==> t in ts {
      DedupSame(ts, t);
    }
  }

  lemma DedupOutcomes(ts: seq<Transfer>)
    ensures Outcomes(Dedup(ts)) == Outcomes(ts)
  {
    forall t ensures t in Dedup(ts) <==> t in ts {
      DedupSame(ts, t);
    }
  }

  // ---- Grouping

  /** The transfers that stay inside the scope. */
  function Passing(inputs: seq<Input>, f: ScopeId): seq<Transfer> {
    if inputs == [] then []
    else
      var x := inputs[|inputs| - 1];
      Passing(inputs[..|inputs| - 1], f) + if Leaves(x, f) then [] else [x.transfer]
  }

  lemma {:induction false} NonePass(inputs: seq<Input>, f: ScopeId)
    requires forall x :: x in inputs ==> Leaves(x, f)
    ensures Passing(inputs, f) == []
    decreases |inputs|
  {
    if inputs != [] {
      assert inputs[|inputs| - 1] in inputs;
      NonePass(inputs[..|inputs| - 1], f);
    }
  }

  /** The leaving inputs are in groups of equal keys, one group for each key. */
  ghost predicate Grouped(inputs: seq<Input>, f: ScopeId, groups: seq<Group>) {
    && (forall i, j :: 0 <= i < j < |groups| ==> groups[i].key != groups[j].key)
    && (forall i :: 0 <= i < |groups| ==> groups[i].inputs != [])
    && (forall i, x :: 0 <= i < |groups| && x in groups[i].inputs ==>
       x in inputs && Leaves(x, f) && InputKey(x) == groups[i].key)
    && (forall x :: x in inputs && Leaves(x, f) ==> InGroup(groups, x))
  }

  ghost predicate InGroup(groups: seq<Group>, x: Input) {
    exists i :: 0 <= i < |groups| && x in groups[i].inputs
  }

  /** The keys of the leaving inputs, in the order of their first occurrence. */
  function KeysOf(inputs: seq<Input>, f: ScopeId): seq<Option<ContinuationKey>> {
    if inputs == [] then []
    else
      var x, keys := inputs[|inputs| - 1], KeysOf(inputs[..|inputs| - 1], f);
      if !Leaves(x, f) || InputKey(x) in keys then keys else keys + [InputKey(x)]
  }

  /** The leaving inputs with this key, in order. */
  function WithKey(inputs: seq<Input>, f: ScopeId, key: Option<ContinuationKey>): seq<Input> {
    if inputs == [] then []
    else
      var x := inputs[|inputs| - 1];
      WithKey(inputs[..|inputs| - 1], f, key) + if Leaves(x, f) && InputKey(x) == key then [x] else []
  }

  /** The groups come in the order of their first inputs, and each has its inputs in order. */
  ghost predicate InOrder(inputs: seq<Input>, f: ScopeId, groups: seq<Group>) {
    && |groups| == |KeysOf(inputs, f)|
    && forall i :: 0 <= i < |groups| ==>
       groups[i].key == KeysOf(inputs, f)[i] && groups[i].inputs == WithKey(inputs, f, groups[i].key)
  }

  lemma {:induction false} NoSuchKey(inputs: seq<Input>, f: ScopeId, key: Option<ContinuationKey>)
    requires key !in KeysOf(inputs, f)
    ensures WithKey(inputs, f, key) == []
    decreases |inputs|
  {
    if inputs != [] {
      var n := |inputs| - 1;
      assert InputKey(inputs[n]) == key && Leaves(inputs[n], f) ==> key in KeysOf(inputs, f);
      NoSuchKey(inputs[..n], f, key);
    }
  }

  lemma OneMoreInput(inputs: seq<Input>, f: ScopeId, x: Input, key: Option<ContinuationKey>)
    ensures KeysOf(inputs + [x], f) == var keys := KeysOf(inputs, f);
            if !Leaves(x, f) || InputKey(x) in keys then keys else keys + [InputKey(x)]
    ensures WithKey(inputs + [x], f, key) == WithKey(inputs, f, key) + if Leaves(x, f)
            && InputKey(x) == key then [x] else []
  {
    assert (inputs + [x])[..|inputs|] == inputs;
  }

  lemma JoinInOrder(inputs: seq<Input>, f: ScopeId, groups: seq<Group>, at: nat, x: Input)
    requires InOrder(inputs, f, groups) && at <= |groups| && Leaves(x, f)
    requires forall i, j :: 0 <= i < j < |groups| ==> groups[i].key != groups[j].key
    requires forall i :: 0 <= i < at ==> groups[i].key != InputKey(x)
    requires at < |groups| ==> groups[at].key == InputKey(x)
    ensures InOrder(inputs + [x], f, Join(groups, at, x))
  {
    hide KeysOf, WithKey, Leaves, InputKey;
    var all := Join(groups, at, x);
    if at == |groups| {
      NoSuchKey(inputs, f, InputKey(x));
    }
    OneMoreInput(inputs, f, x, None);
    assert at < |groups| ==> InputKey(x) == KeysOf(inputs, f)[at];
    assert |all| == |KeysOf(inputs + [x], f)|;
    forall i | 0 <= i < |all|
      ensures all[i].key == KeysOf(inputs + [x], f)[i]
      ensures all[i].inputs == WithKey(inputs + [x], f, all[i].key)
    {
      OneMoreInput(inputs, f, x, all[i].key);
    }
  }

  lemma SkipInOrder(inputs: seq<Input>, f: ScopeId, groups: seq<Group>, x: Input)
    requires InOrder(inputs, f, groups) && !Leaves(x, f)
    ensures InOrder(inputs + [x], f, groups)
  {
    hide KeysOf, WithKey;
    OneMoreInput(inputs, f, x, None);
    forall i | 0 <= i < |groups| ensures groups[i].inputs == WithKey(inputs + [x], f, groups[i].key) {
      OneMoreInput(inputs, f, x, groups[i].key);
    }
  }

  function Join(groups: seq<Group>, at: nat, x: Input): seq<Group>
    requires at <= |groups|
  {
    if at == |groups| then groups + [Group(InputKey(x), [x])]
    else groups[at := Group(groups[at].key, groups[at].inputs + [x])]
  }

  lemma JoinGrouped(inputs: seq<Input>, f: ScopeId, groups: seq<Group>, at: nat, x: Input)
    requires Grouped(inputs, f, groups) && at <= |groups| && Leaves(x, f)
    requires forall i :: 0 <= i < at ==> groups[i].key != InputKey(x)
    requires at < |groups| ==> groups[at].key == InputKey(x)
    ensures Grouped(inputs + [x], f, Join(groups, at, x))
  {
    var all := Join(groups, at, x);
    forall i, y | 0 <= i < |all| && y in all[i].inputs
      ensures y in inputs + [x] && Leaves(y, f) && InputKey(y) == all[i].key
    {
      if i == at {
        assert y == x || (at < |groups| && y in groups[at].inputs);
      } else {
        assert y in groups[i].inputs;
      }
    }
    forall y | y in inputs + [x] && Leaves(y, f) ensures InGroup(all, y) {
      if y == x {
        assert x in all[at].inputs;
      } else {
        var i :| 0 <= i < |groups| && y in groups[i].inputs;
        assert y in all[i].inputs;
      }
    }
  }

  lemma SkipGrouped(inputs: seq<Input>, f: ScopeId, groups: seq<Group>, x: Input)
    requires Grouped(inputs, f, groups) && !Leaves(x, f)
    ensures Grouped(inputs + [x], f, groups)
  {
    forall y | y in inputs + [x] && Leaves(y, f) ensures InGroup(groups, y) {
      assert y in inputs;
    }
  }

  lemma EmptyInOrder(f: ScopeId)
    ensures InOrder([], f, [])
  {}

  /** The first group with this key, or the number of groups. */
  method FindGroup(groups: seq<Group>, key: Option<ContinuationKey>) returns (at: nat)
    ensures at <= |groups| && (at < |groups| ==> groups[at].key == key)
    ensures forall i :: 0 <= i < at ==> groups[i].key != key
  {
    at := 0;
    while at < |groups| && groups[at].key != key
      invariant at <= |groups| && forall i :: 0 <= i < at ==> groups[i].key != key
    {
      at := at + 1;
    }
  }

  method GroupInputs(inputs: seq<Input>, f: ScopeId) returns (passing: seq<Transfer>, groups: seq<Group>)
    ensures passing == Passing(inputs, f) && Grouped(inputs, f, groups) && InOrder(inputs, f, groups)
  {
    hide KeysOf, WithKey;
    EmptyInOrder(f);
    passing, groups := [], [];
    var i := 0;
    while i < |inputs|
      invariant 0 <= i <= |inputs|
      invariant passing == Passing(inputs[..i], f) && Grouped(inputs[..i], f, groups) && InOrder(inputs[..i], f, groups)
    {
      var x := inputs[i];
      assert inputs[..i + 1] == inputs[..i] + [x] && inputs[..i + 1][..i] == inputs[..i];
      if x.FromTransfer? && !LeavesScope(x.transfer, f) {
        passing := passing + [x.transfer];
        SkipGrouped(inputs[..i], f, groups, x);
        SkipInOrder(inputs[..i], f, groups, x);
      } else {
        var at := FindGroup(groups, InputKey(x));
        JoinGrouped(inputs[..i], f, groups, at, x);
        JoinInOrder(inputs[..i], f, groups, at, x);
        groups := Join(groups, at, x);
      }
      i := i + 1;
    }
    assert inputs[..i] == inputs;
  }
}
