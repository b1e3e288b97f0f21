/** The validated map from prepared bytes back to the sources they came from. */
module SourceMaps {
  import opened PascalSyntax
  import opened ByteText

  datatype Kind = Copied | Masked | Synthetic

  datatype Span = Span(source: SourceId, range: Range)

  datatype Segment = Segment(prepared: Range, original: Option<Span>, expansion: ExpansionId, kind: Kind)

  datatype MapError =
    | EmptySourceId | EmptyExpansionId | DuplicateSourceId | ConflictingSourceId | UnknownSourceId
    | InvalidRange | PreparedOutOfBounds | Overlapping | IncompleteCoverage | EmptySegment
    | SyntheticHasOrigin | MissingOrigin | ExpansionMismatch | OriginalOutOfBounds | LengthMismatch
    | CopiedMismatch | MaskMismatch | OriginsOverlap | QueryOutOfBounds

  datatype Result<T> = Ok(value: T) | Err(error: MapError)

  datatype SourceMap = SourceMap(prepared: Bytes, sources: seq<Snapshot>, segments: seq<Segment>)

  // ---- What a valid map is

  ghost predicate SourcesOk(sources: seq<Snapshot>) {
    && (forall i :: 0 <= i < |sources| ==> sources[i].id != "")
    && (forall i, j :: 0 <= i < j < |sources| ==> sources[i].id != sources[j].id)
  }

  /** The end of what the first `n` segments cover. */
  function CoveredTo(segments: seq<Segment>, n: nat): nat
    requires n <= |segments|
  {
    if n == 0 then 0 else segments[n - 1].prepared.end
  }

  /** Segments follow each other without gap or overlap and none is empty. */
  ghost predicate Contiguous(segments: seq<Segment>) {
    forall i :: 0 <= i < |segments| ==> PieceAt(segments, i)
  }

  /** Segment `i` starts where the previous one ends, and is not empty. */
  ghost predicate PieceAt(segments: seq<Segment>, i: nat)
    requires i < |segments|
  {
    segments[i].prepared.start == CoveredTo(segments, i) && segments[i].prepared.start < segments[i].prepared.end
  }

  ghost predicate Tiles(segments: seq<Segment>, n: nat) {
    Contiguous(segments) && CoveredTo(segments, |segments|) == n
  }

  /** Blank bytes, with the line breaks where the original has them. */
  ghost predicate MaskOf(prepared: Bytes, original: Bytes) {
    && |prepared| == |original|
    && forall i :: 0 <= i < |prepared| ==>
         IsWhitespace(prepared[i])
         && (if IsBreak(original[i]) then prepared[i] == original[i] else !IsBreak(prepared[i]))
  }

  ghost predicate OriginOk(prepared: Bytes, sources: seq<Snapshot>, s: Segment)
    requires s.prepared.Within(|prepared|) && s.original.Some?
  {
    var o := s.original.value;
    exists k :: 0 <= k < |sources| && sources[k].id == o.source && CopyOk(prepared, sources[k], s)
  }

  ghost predicate CopyOk(prepared: Bytes, source: Snapshot, s: Segment)
    requires s.prepared.Within(|prepared|) && s.original.Some?
  {
    var r := s.original.value.range;
    && r.Within(|source.bytes|)
    && r.Length() == s.prepared.Length()
    && (s.kind.Copied? ==> Slice(prepared, s.prepared) == Slice(source.bytes, r))
    && (s.kind.Masked? ==> MaskOf(Slice(prepared, s.prepared), Slice(source.bytes, r)))
  }

  ghost predicate SegmentOk(prepared: Bytes, sources: seq<Snapshot>, s: Segment) {
    && s.expansion.Expansion? && s.prepared.Within(|prepared|)
    && (if s.kind.Synthetic? then s.original.None? else s.original.Some? && OriginOk(prepared, sources, s))
  }

  /** One expansion expands one source. */
  ghost predicate OneSource(segments: seq<Segment>) {
    forall i, j :: 0 <= i < j < |segments| && SameExpansion(segments[i], segments[j]) ==>
      segments[i].original.value.source == segments[j].original.value.source
  }

  predicate SameExpansion(a: Segment, b: Segment) {
    a.original.Some? && b.original.Some? && a.expansion == b.expansion
  }

  predicate RangesOverlap(a: Range, b: Range) {
    a.start < b.end && b.start < a.end
  }

  predicate ClaimTwice(a: Segment, b: Segment) {
    && SameExpansion(a, b)
    && a.original.value.source == b.original.value.source
    && RangesOverlap(a.original.value.range, b.original.value.range)
  }

  /** Within one expansion no original byte is claimed twice. */
  ghost predicate OriginsDisjoint(segments: seq<Segment>) {
    forall i, j :: 0 <= i < j < |segments| ==> !ClaimTwice(segments[i], segments[j])
  }

  ghost predicate ValidMap(prepared: Bytes, sources: seq<Snapshot>, segments: seq<Segment>) {
    && SourcesOk(sources)
    && Tiles(segments, |prepared|)
    && (forall i :: 0 <= i < |segments| ==> SegmentOk(prepared, sources, segments[i]))
    && OneSource(segments)
    && OriginsDisjoint(segments)
  }

  // ---- Disjointness by neighbours

  predicate Before(a: Range, b: Range) {
    a.start < b.start || (a.start == b.start && a.end <= b.end)
  }

  ghost predicate Sorted(rs: seq<Range>) {
    forall i, j :: 0 <= i < j < |rs| ==> Before(rs[i], rs[j])
  }

  ghost predicate PairwiseDisjoint(rs: seq<Range>) {
    forall i, j :: 0 <= i < j < |rs| ==> !RangesOverlap(rs[i], rs[j])
  }

  ghost predicate NeighboursDisjoint(rs: seq<Range>) {
    forall i :: 0 <= i < |rs| - 1 ==> !RangesOverlap(rs[i], rs[i + 1])
  }

  /** In sorted order, non-empty ranges are pairwise disjoint as soon as neighbours are. */
  lemma {:induction false} NeighboursSuffice(rs: seq<Range>)
    requires Sorted(rs) && forall i :: 0 <= i < |rs| ==> rs[i].start < rs[i].end
    ensures PairwiseDisjoint(rs) <==> NeighboursDisjoint(rs)
  {
    if NeighboursDisjoint(rs) {
      forall i, j | 0 <= i < j < |rs| ensures !RangesOverlap(rs[i], rs[j]) {
        EndsBefore(rs, i, j);
      }
    }
  }

  lemma {:induction false} EndsBefore(rs: seq<Range>, i: nat, j: nat)
    requires Sorted(rs) && NeighboursDisjoint(rs) && (forall k :: 0 <= k < |rs| ==> rs[k].start < rs[k].end)
    requires i < j < |rs|
    ensures rs[i].end <= rs[j].start
    decreases j - i
  {
    assert Before(rs[j - 1], rs[j]) && !RangesOverlap(rs[j - 1], rs[j - 1 + 1]);
    if i < j - 1 {
      EndsBefore(rs, i, j - 1);
    }
  }

  /** Sort ranges by start, then end. */
  method SortRanges(rs: seq<Range>) returns (sorted: seq<Range>)
    ensures Sorted(sorted) && multiset(sorted) == multiset(rs)
  {
    sorted := [];
    var i := 0;
    while i < |rs|
      invariant 0 <= i <= |rs| && Sorted(sorted) && multiset(sorted) == multiset(rs[..i])
    {
      assert rs[..i + 1] == rs[..i] + [rs[i]];
      sorted := InsertRange(sorted, rs[i]);
      i := i + 1;
    }
    assert rs[..i] == rs;
  }

  method InsertRange(sorted: seq<Range>, r: Range) returns (more: seq<Range>)
    requires Sorted(sorted)
    ensures Sorted(more) && multiset(more) == multiset(sorted) + multiset{r}
  {
    var k := 0;
    while k < |sorted| && Before(sorted[k], r)
      invariant 0 <= k <= |sorted| && forall i :: 0 <= i < k ==> Before(sorted[i], r)
    {
      k := k + 1;
    }
    more := sorted[..k] + [r] + sorted[k..];
    assert sorted == sorted[..k] + sorted[k..];
  }

  /** Disjointness does not depend on the order of the ranges. */
  lemma DisjointPermuted(a: seq<Range>, b: seq<Range>)
    requires multiset(a) == multiset(b) && PairwiseDisjoint(a) && forall i :: 0 <= i < |b| ==> b[i].start < b[i].end
    ensures PairwiseDisjoint(b)
  {
    forall i, j | 0 <= i < j < |b| ensures !RangesOverlap(b[i], b[j]) {
      if b[i] == b[j] {
        Twice(b, i, j);
        var x, y := OccursTwice(a, b[i]);
      } else {
        assert b[i] in multiset(b) && b[j] in multiset(b);
        assert b[i] in multiset(a) && b[j] in multiset(a);
        var x :| 0 <= x < |a| && a[x] == b[i];
        var y :| 0 <= y < |a| && a[y] == b[j];
      }
    }
  }

  lemma Twice(b: seq<Range>, i: nat, j: nat)
    requires i < j < |b| && b[i] == b[j]
    ensures multiset(b)[b[i]] >= 2
  {
    var front, back := b[..j], b[j..];
    assert b == front + back;
    assert front[i] == b[i] && back[0] == b[i];
    assert b[i] in multiset(front) && b[i] in multiset(back);
  }

  lemma OccursTwice(a: seq<Range>, r: Range) returns (x: nat, y: nat)
    requires multiset(a)[r] >= 2
    ensures x < y < |a| && a[x] == r == a[y]
  {
    assert r in multiset(a);
    var i :| 0 <= i < |a| && a[i] == r;
    var rest := a[..i] + a[i + 1..];
    assert a == a[..i] + [a[i]] + a[i + 1..];
    assert multiset(a) == multiset(rest) + multiset{r};
    assert r in multiset(rest);
    var k :| 0 <= k < |rest| && rest[k] == r;
    var j := if k < i then k else k + 1;
    assert a[j] == r && j != i;
    x, y := if i < j then i else j, if i < j then j else i;
  }

  // ---- Validation

  type Index = map<SourceId, nat>

  ghost predicate Indexes(index: Index, sources: seq<Snapshot>) {
    && (forall id :: id in index ==> index[id] < |sources| && sources[index[id]].id == id)
    && (forall k :: 0 <= k < |sources| ==> sources[k].id in index)
  }

  method IndexSources(sources: seq<Snapshot>) returns (r: Result<Index>)
    ensures r.Ok? <==> SourcesOk(sources)
    ensures r.Ok? ==> Indexes(r.value, sources)
  {
    var index: Index := map[];
    var i := 0;
    while i < |sources|
      invariant 0 <= i <= |sources| && SourcesOk(sources[..i]) && Indexes(index, sources[..i])
    {
      var source := sources[i];
      if source.id == "" {
        return Err(EmptySourceId);
      }
      if source.id in index {
        assert sources[index[source.id]].id == sources[i].id;
        return Err(if sources[index[source.id]].bytes == source.bytes then DuplicateSourceId else ConflictingSourceId);
      }
      assert forall k :: 0 <= k < i ==> sources[..i][k].id != source.id;
      index := index[source.id := i];
      i := i + 1;
    }
    assert sources[..i] == sources;
    r := Ok(index);
  }

  /** The first byte at which the blank text does not fit its original, if any. */
  method ValidateMask(prepared: Bytes, original: Bytes) returns (ok: bool)
    requires |prepared| == |original|
    ensures ok <==> MaskOf(prepared, original)
  {
    var i := 0;
    while i < |prepared|
      invariant 0 <= i <= |prepared| && MaskOf(prepared[..i], original[..i])
    {
      var p, o := prepared[i], original[i];
      if !IsWhitespace(p) || IsBreak(p) != IsBreak(o) || (IsBreak(p) && p != o) {
        return false;
      }
      assert prepared[..i + 1] == prepared[..i] + [p] && original[..i + 1] == original[..i] + [o];
      i := i + 1;
    }
    assert prepared[..i] == prepared && original[..i] == original;
    ok := true;
  }

  /** The origin of one segment against the sources. */
  method CheckOrigin(prepared: Bytes, sources: seq<Snapshot>, index: Index, s: Segment) returns (e: Option<MapError>)
    requires SourcesOk(sources) && Indexes(index, sources) && s.prepared.Within(|prepared|)
    requires s.prepared.start < s.prepared.end && s.expansion.Expansion?
    ensures e.None? <==> SegmentOk(prepared, sources, s)
  {
    if s.kind.Synthetic? {
      return if s.original.Some? then Some(SyntheticHasOrigin) else None;
    }
    if s.original.None? {
      return Some(MissingOrigin);
    }
    var o := s.original.value;
    if o.source !in index {
      return Some(UnknownSourceId);
    }
    var k := index[o.source];
    assert forall m :: 0 <= m < |sources| && sources[m].id == o.source ==> m == k;
    var source := sources[k];
    if o.range.start > o.range.end {
      return Some(InvalidRange);
    }
    if o.range.end > |source.bytes| {
      return Some(OriginalOutOfBounds);
    }
    if s.prepared.Length() != o.range.Length() {
      return Some(LengthMismatch);
    }
    if s.kind.Copied? {
      if Slice(prepared, s.prepared) != Slice(source.bytes, o.range) {
        return Some(CopiedMismatch);
      }
    } else {
      var ok := ValidateMask(Slice(prepared, s.prepared), Slice(source.bytes, o.range));
      if !ok {
        return Some(MaskMismatch);
      }
    }
    assert CopyOk(prepared, source, s);
    e := None;
  }

  // ---- Origins grouped by source and expansion

  type GroupKey = (SourceId, ExpansionId)

  function KeyOf(s: Segment): GroupKey
    requires s.original.Some?
  {
    (s.original.value.source, s.expansion)
  }

  predicate HasKey(s: Segment, key: GroupKey) {
    s.original.Some? && KeyOf(s) == key
  }

  /** The original ranges that the segments claim under one key, in order. */
  function OriginsOf(segments: seq<Segment>, key: GroupKey): seq<Range> {
    if segments == [] then []
    else
      var last := segments[|segments| - 1];
      OriginsOf(segments[..|segments| - 1], key) + if HasKey(last, key) then [last.original.value.range] else []
  }

  lemma {:induction false} OriginsMember(segments: seq<Segment>, key: GroupKey, r: Range)
    ensures r in OriginsOf(segments, key) <==>
            exists i :: 0 <= i < |segments| && HasKey(segments[i], key) && segments[i].original.value.range == r
    decreases |segments|
  {
    if segments != [] {
      var n := |segments| - 1;
      OriginsMember(segments[..n], key, r);
      if exists i :: 0 <= i < |segments| && HasKey(segments[i], key) && segments[i].original.value.range == r {
        var i :| 0 <= i < |segments| && HasKey(segments[i], key) && segments[i].original.value.range == r;
        if i < n {
          assert segments[..n][i] == segments[i];
        }
      }
      if r in OriginsOf(segments[..n], key) {
        var i :| 0 <= i < n && HasKey(segments[..n][i], key) && segments[..n][i].original.value.range == r;
        assert segments[i] == segments[..n][i];
      }
    }
  }

  lemma DisjointAppend(rs: seq<Range>, r: Range)
    ensures PairwiseDisjoint(rs + [r]) <==> PairwiseDisjoint(rs) && forall x :: x in rs ==> !RangesOverlap(x, r)
  {
    var all := rs + [r];
    if PairwiseDisjoint(all) {
      forall i, j | 0 <= i < j < |rs| ensures !RangesOverlap(rs[i], rs[j]) {
        assert !RangesOverlap(all[i], all[j]);
      }
      forall x | x in rs ensures !RangesOverlap(x, r) {
        var i :| 0 <= i < |rs| && rs[i] == x;
        assert !RangesOverlap(all[i], all[|rs|]);
      }
    }
  }

  ghost predicate GroupDisjoint(segments: seq<Segment>, key: GroupKey) {
    PairwiseDisjoint(OriginsOf(segments, key))
  }

  ghost predicate GroupsDisjoint(segments: seq<Segment>) {
    forall key :: GroupDisjoint(segments, key)
  }

  /** Origins are disjoint exactly when each group of ranges is. */
  lemma {:induction false} DisjointByGroups(segments: seq<Segment>)
    ensures OriginsDisjoint(segments) <==> GroupsDisjoint(segments)
    decreases |segments|
  {
    hide PairwiseDisjoint;
    if segments == [] {
      forall key ensures GroupDisjoint([], key) {
        NoRanges();
      }
    } else {
      var n := |segments| - 1;
      var front, last := segments[..n], segments[n];
      DisjointByGroups(front);
      assert segments == front + [last];
      DisjointLast(front, last);
      forall key ensures GroupDisjoint(segments, key) <==>
          GroupDisjoint(front, key) && (HasKey(last, key) ==> NoneClaims(front, last)) {
        if HasKey(last, key) {
          LastInGroup(front, last);
        } else {
          assert OriginsOf(segments, key) == OriginsOf(front, key);
        }
      }
      if !last.original.Some? {
        assert NoneClaims(front, last);
      } else {
        assert HasKey(last, KeyOf(last));
      }
      hide OriginsOf, GroupDisjoint, OriginsDisjoint, NoneClaims;
      assert GroupsDisjoint(segments) <==> GroupsDisjoint(front) && NoneClaims(front, last) by {
        if GroupsDisjoint(segments) && last.original.Some? {
          assert GroupDisjoint(segments, KeyOf(last));
        }
      }
    }
  }

  lemma NoRanges()
    ensures PairwiseDisjoint([])
  {}

  ghost predicate NoneClaims(front: seq<Segment>, last: Segment) {
    forall i :: 0 <= i < |front| ==> !ClaimTwice(front[i], last)
  }

  lemma DisjointLast(front: seq<Segment>, last: Segment)
    ensures OriginsDisjoint(front + [last]) <==> OriginsDisjoint(front) && NoneClaims(front, last)
  {
    var all := front + [last];
    assert forall i :: 0 <= i < |front| ==> all[i] == front[i];
    if OriginsDisjoint(all) {
      forall i | 0 <= i < |front| ensures !ClaimTwice(front[i], last) {
        assert !ClaimTwice(all[i], all[|front|]);
      }
      forall i, j | 0 <= i < j < |front| ensures !ClaimTwice(front[i], front[j]) {
        assert !ClaimTwice(all[i], all[j]);
      }
    }
  }

  lemma LastInGroup(front: seq<Segment>, last: Segment)
    requires last.original.Some?
    ensures GroupDisjoint(front + [last], KeyOf(last)) <==> GroupDisjoint(front, KeyOf(last)) && NoneClaims(front, last)
  {
    var key := KeyOf(last);
    var r := last.original.value.range;
    var rs := OriginsOf(front, key);
    assert (front + [last])[..|front|] == front;
    DisjointAppend(rs, r);
    forall x ensures x in rs <==>
        exists i :: 0 <= i < |front| && HasKey(front[i], key) && front[i].original.value.range == x {
      OriginsMember(front, key, x);
    }
    hide OriginsOf, PairwiseDisjoint;
    if forall x :: x in rs ==> !RangesOverlap(x, r) {
      forall i | 0 <= i < |front| ensures !ClaimTwice(front[i], last) {
        if HasKey(front[i], key) {
          assert front[i].original.value.range in rs;
        }
      }
    }
  }

  // ---- The constructor

  /** What is known after the first `n` segments. */
  ghost predicate Checked(
    prepared: Bytes, sources: seq<Snapshot>, segments: seq<Segment>, n: nat, expected: nat,
    expansions: map<ExpansionId, SourceId>, groups: map<GroupKey, seq<Range>>)
    requires n <= |segments|
  {
    && expected == CoveredTo(segments, n)
    && Contiguous(segments[..n])
    && (forall i :: 0 <= i < n ==> SegmentOk(prepared, sources, segments[i]))
    && Expanded(segments[..n], expansions)
    && Gathered(segments[..n], groups)
  }

  ghost predicate Expanded(segments: seq<Segment>, expansions: map<ExpansionId, SourceId>) {
    && (forall i :: 0 <= i < |segments| && segments[i].original.Some? ==>
          segments[i].expansion in expansions && expansions[segments[i].expansion] == segments[i].original.value.source)
    && (forall x :: x in expansions ==>
          exists i :: 0 <= i < |segments| && segments[i].original.Some? && segments[i].expansion == x)
  }

  ghost predicate Gathered(segments: seq<Segment>, groups: map<GroupKey, seq<Range>>) {
    forall key :: (if key in groups then groups[key] else []) == OriginsOf(segments, key)
  }

  lemma ExpandedOneSource(segments: seq<Segment>, expansions: map<ExpansionId, SourceId>)
    requires Expanded(segments, expansions)
    ensures OneSource(segments)
  {}

  lemma CoveredPrefix(segments: seq<Segment>, n: nat)
    requires n < |segments|
    ensures Contiguous(segments[..n + 1]) <==> Contiguous(segments[..n]) && PieceAt(segments, n)
  {
    var a, b := segments[..n], segments[..n + 1];
    forall i | 0 <= i < n ensures PieceAt(a, i) <==> PieceAt(segments, i) {
    }
    forall i | 0 <= i <= n ensures PieceAt(b, i) <==> PieceAt(segments, i) {
    }
  }

  /** Segment `n` is the next piece of a valid map. */
  method CheckSegment(
    prepared: Bytes, sources: seq<Snapshot>, index: Index, segments: seq<Segment>, n: nat, expected: nat,
    expansions: map<ExpansionId, SourceId>)
    returns (e: Option<MapError>)
    requires n < |segments| && SourcesOk(sources) && Indexes(index, sources)
    requires expected == CoveredTo(segments, n) && Expanded(segments[..n], expansions)
    ensures e.None? ==> SegmentOk(prepared, sources, segments[n])
    ensures e.None? ==> segments[n].prepared.start == expected && segments[n].prepared.start < segments[n].prepared.end
    ensures e.None? && segments[n].original.Some? && segments[n].expansion in expansions ==>
              expansions[segments[n].expansion] == segments[n].original.value.source
    ensures e.Some? ==> !ValidMap(prepared, sources, segments)
  {
    var s := segments[n];
    assert ValidMap(prepared, sources, segments) ==> PieceAt(segments, n);
    if s.expansion.NoExpansion? {
      return Some(EmptyExpansionId);
    }
    if s.prepared.start > s.prepared.end {
      return Some(InvalidRange);
    }
    if s.prepared.end > |prepared| {
      assert !SegmentOk(prepared, sources, s);
      return Some(PreparedOutOfBounds);
    }
    if s.prepared.start < expected {
      return Some(Overlapping);
    }
    if s.prepared.start > expected {
      return Some(IncompleteCoverage);
    }
    if s.prepared.start == s.prepared.end {
      return Some(EmptySegment);
    }
    if s.original.Some? && s.expansion in expansions && expansions[s.expansion] != s.original.value.source {
      Mismatch(segments, n, expansions);
      return Some(ExpansionMismatch);
    }
    e := CheckOrigin(prepared, sources, index, s);
  }

  lemma Mismatch(segments: seq<Segment>, n: nat, expansions: map<ExpansionId, SourceId>)
    requires n < |segments| && Expanded(segments[..n], expansions)
    requires segments[n].original.Some? && segments[n].expansion in expansions
    requires expansions[segments[n].expansion] != segments[n].original.value.source
    ensures !OneSource(segments)
  {
    var i :| 0 <= i < n && segments[..n][i].original.Some? && segments[..n][i].expansion == segments[n].expansion;
    assert SameExpansion(segments[i], segments[n]);
  }

  lemma CheckedNext(
    prepared: Bytes, sources: seq<Snapshot>, segments: seq<Segment>, n: nat, expected: nat,
    expansions: map<ExpansionId, SourceId>, groups: map<GroupKey, seq<Range>>)
    requires n < |segments| && Checked(prepared, sources, segments, n, expected, expansions, groups)
    requires SegmentOk(prepared, sources, segments[n])
    requires segments[n].prepared.start == expected && segments[n].prepared.start < segments[n].prepared.end
    requires segments[n].original.Some? && segments[n].expansion in expansions ==>
               expansions[segments[n].expansion] == segments[n].original.value.source
    ensures Checked(prepared, sources, segments, n + 1, segments[n].prepared.end,
                    NextExpansions(expansions, segments[n]), NextGroups(groups, segments[n]))
  {
    hide SegmentOk, Expanded, Gathered, Contiguous, NextExpansions, NextGroups;
    var s := segments[n];
    CoveredPrefix(segments, n);
    assert segments[..n + 1] == segments[..n] + [s];
    ExpandedNext(segments[..n], expansions, s);
    GatheredNext(segments[..n], groups, s);
  }

  function NextExpansions(expansions: map<ExpansionId, SourceId>, s: Segment): map<ExpansionId, SourceId> {
    if s.original.Some? then expansions[s.expansion := s.original.value.source] else expansions
  }

  function NextGroups(groups: map<GroupKey, seq<Range>>, s: Segment): map<GroupKey, seq<Range>> {
    if s.original.None? then groups
    else
      var key := KeyOf(s);
      groups[key := (if key in groups then groups[key] else []) + [s.original.value.range]]
  }

  lemma ExpandedNext(segments: seq<Segment>, expansions: map<ExpansionId, SourceId>, s: Segment)
    requires Expanded(segments, expansions)
    requires s.original.Some? && s.expansion in expansions ==> expansions[s.expansion] == s.original.value.source
    ensures Expanded(segments + [s], NextExpansions(expansions, s))
  {
    var all := segments + [s];
    var next := NextExpansions(expansions, s);
    forall x | x in next ensures exists i :: 0 <= i < |all| && all[i].original.Some? && all[i].expansion == x {
      if x in expansions {
        var i :| 0 <= i < |segments| && segments[i].original.Some? && segments[i].expansion == x;
        assert all[i] == segments[i];
      } else {
        assert all[|segments|] == s;
      }
    }
  }

  lemma GatheredNext(segments: seq<Segment>, groups: map<GroupKey, seq<Range>>, s: Segment)
    requires Gathered(segments, groups)
    ensures Gathered(segments + [s], NextGroups(groups, s))
  {
    var all := segments + [s];
    var next := NextGroups(groups, s);
    assert all[..|segments|] == segments;
    forall key ensures (if key in next then next[key] else []) == OriginsOf(all, key) {
      assert (if key in groups then groups[key] else []) == OriginsOf(segments, key);
    }
  }

  /** Sort each group of original ranges and compare neighbours. */
  method CheckGroups(groups: map<GroupKey, seq<Range>>, ghost segments: seq<Segment>) returns (ok: bool)
    requires Gathered(segments, groups)
    requires forall key, i :: key in groups && 0 <= i < |groups[key]| ==> groups[key][i].start < groups[key][i].end
    ensures ok <==> OriginsDisjoint(segments)
  {
    hide PairwiseDisjoint, OriginsOf, OriginsDisjoint;
    var keys := groups.Keys;
    DisjointByGroups(segments);
    while keys != {}
      invariant keys <= groups.Keys
      invariant forall key :: key in groups && key !in keys ==> PairwiseDisjoint(groups[key])
      decreases |keys|
    {
      var key :| key in keys;
      var disjoint := CheckGroup(groups[key]);
      if !disjoint {
        assert groups[key] == OriginsOf(segments, key);
        assert !GroupDisjoint(segments, key);
        return false;
      }
      keys := keys - {key};
    }
    forall key ensures GroupDisjoint(segments, key) {
      assert (if key in groups then groups[key] else []) == OriginsOf(segments, key);
      NoRanges();
    }
    ok := true;
  }

  method CheckGroup(ranges: seq<Range>) returns (disjoint: bool)
    requires forall i :: 0 <= i < |ranges| ==> ranges[i].start < ranges[i].end
    ensures disjoint <==> PairwiseDisjoint(ranges)
  {
    var sorted := SortRanges(ranges);
    forall i | 0 <= i < |sorted| ensures sorted[i].start < sorted[i].end {
      assert sorted[i] in multiset(sorted);
      assert sorted[i] in multiset(ranges);
    }
    NeighboursSuffice(sorted);
    if PairwiseDisjoint(sorted) {
      DisjointPermuted(sorted, ranges);
    }
    if PairwiseDisjoint(ranges) {
      DisjointPermuted(ranges, sorted);
    }
    var i := 0;
    while i + 1 < |sorted|
      invariant 0 <= i && forall k :: 0 <= k < i && k + 1 < |sorted| ==> !RangesOverlap(sorted[k], sorted[k + 1])
    {
      if RangesOverlap(sorted[i], sorted[i + 1]) {
        return false;
      }
      i := i + 1;
    }
    disjoint := true;
  }

  /** Accepts exactly the valid maps. */
  method NewSourceMap(prepared: Bytes, sources: seq<Snapshot>, segments: seq<Segment>) returns (r: Result<SourceMap>)
    ensures r.Ok? <==> ValidMap(prepared, sources, segments)
    ensures r.Ok? ==> r.value == SourceMap(prepared, sources, segments)
  {
    var indexed := IndexSources(sources);
    if indexed.Err? {
      return Err(indexed.error);
    }
    hide SourcesOk, Indexes, SegmentOk, OriginsDisjoint;
    var expected := 0;
    var expansions: map<ExpansionId, SourceId> := map[];
    var groups: map<GroupKey, seq<Range>> := map[];
    var i := 0;
    CheckedNone(prepared, sources, segments);
    while i < |segments|
      invariant 0 <= i <= |segments| && Checked(prepared, sources, segments, i, expected, expansions, groups)
    {
      var e := CheckSegment(prepared, sources, indexed.value, segments, i, expected, expansions);
      if e.Some? {
        return Err(e.value);
      }
      CheckedNext(prepared, sources, segments, i, expected, expansions, groups);
      expected := segments[i].prepared.end;
      expansions := NextExpansions(expansions, segments[i]);
      groups := NextGroups(groups, segments[i]);
      i := i + 1;
    }
    assert segments[..i] == segments;
    if expected != |prepared| {
      return Err(IncompleteCoverage);
    }
    ExpandedOneSource(segments, expansions);
    NonEmptyOrigins(prepared, sources, segments, groups);
    var ok := CheckGroups(groups, segments);
    if !ok {
      return Err(OriginsOverlap);
    }
    r := Ok(SourceMap(prepared, sources, segments));
  }

  lemma CheckedNone(prepared: Bytes, sources: seq<Snapshot>, segments: seq<Segment>)
    ensures Checked(prepared, sources, segments, 0, 0, map[], map[])
  {}

  lemma NonEmptyOrigins(
    prepared: Bytes, sources: seq<Snapshot>, segments: seq<Segment>, groups: map<GroupKey, seq<Range>>)
    requires Contiguous(segments) && Gathered(segments, groups) && forall i :: 0 <= i < |segments| ==>
             SegmentOk(prepared, sources, segments[i])
    ensures forall key, i :: key in groups && 0 <= i < |groups[key]| ==> groups[key][i].start < groups[key][i].end
  {
    forall key, i | key in groups && 0 <= i < |groups[key]| ensures groups[key][i].start < groups[key][i].end {
      assert groups[key] == OriginsOf(segments, key);
      OriginsMember(segments, key, groups[key][i]);
      var j :| 0 <= j < |segments| && HasKey(segments[j], key) && segments[j].original.value.range == groups[key][i];
      assert SegmentOk(prepared, sources, segments[j]) && PieceAt(segments, j);
    }
  }

  // ---- Queries

  datatype Mapped = Mapped(prepared: Range, original: Option<Span>, expansion: ExpansionId, kind: Kind)

  predicate Contributes(s: Segment, q: Range) {
    s.prepared.end > q.start && s.prepared.start < q.end
  }

  /** The part of a segment that lies in the query. */
  function Clip(s: Segment, q: Range): Mapped
    requires Contributes(s, q) && s.prepared.start <= s.prepared.end && q.start <= q.end
  {
    var start := if s.prepared.start < q.start then q.start else s.prepared.start;
    var end := if q.end < s.prepared.end then q.end else s.prepared.end;
    var offset := start - s.prepared.start;
    var original :=
      if s.original.None? then None
      else
        var from := s.original.value.range.start + offset;
        Some(Span(s.original.value.source, Range(from, from + (if start <= end then end - start else 0))));
    Mapped(Range(start, end), original, s.expansion, s.kind)
  }

  /** The simple form: look at every segment. */
  function ScanAll(segments: seq<Segment>, q: Range): seq<Mapped>
    requires q.start <= q.end && forall i :: 0 <= i < |segments| ==>
             segments[i].prepared.start <= segments[i].prepared.end
  {
    if segments == [] then []
    else (if Contributes(segments[0], q) then [Clip(segments[0], q)] else []) + ScanAll(segments[1..], q)
  }

  /** Ends grow along a contiguous list. */
  lemma {:induction false} EndsGrow(segments: seq<Segment>, i: nat, j: nat)
    requires Contiguous(segments) && i < j < |segments|
    ensures segments[i].prepared.end <= segments[j].prepared.start < segments[j].prepared.end
    decreases j - i
  {
    assert PieceAt(segments, j);
    if i < j - 1 {
      EndsGrow(segments, i, j - 1);
    }
  }

  lemma Ordered(segments: seq<Segment>)
    requires Contiguous(segments)
    ensures forall i :: 0 <= i < |segments| ==> segments[i].prepared.start <= segments[i].prepared.end
    ensures forall i, j :: 0 <= i < j < |segments| ==> segments[i].prepared.end < segments[j].prepared.end
  {
    forall i | 0 <= i < |segments| ensures segments[i].prepared.start <= segments[i].prepared.end {
      assert PieceAt(segments, i);
    }
    forall i, j | 0 <= i < j < |segments| ensures segments[i].prepared.end < segments[j].prepared.end {
      EndsGrow(segments, i, j);
    }
  }

  /** The first segment that ends after `x`, by halving. */
  method PartitionPoint(segments: seq<Segment>, x: nat) returns (k: nat)
    requires Contiguous(segments)
    ensures k <= |segments|
    ensures forall i :: 0 <= i < k ==> segments[i].prepared.end <= x
    ensures forall i :: k <= i < |segments| ==> segments[i].prepared.end > x
  {
    hide Contiguous;
    Ordered(segments);
    var lo, hi := 0, |segments|;
    while lo < hi
      invariant 0 <= lo <= hi <= |segments|
      invariant forall i :: 0 <= i < lo ==> segments[i].prepared.end <= x
      invariant forall i :: hi <= i < |segments| ==> segments[i].prepared.end > x
    {
      var mid := (lo + hi) / 2;
      if segments[mid].prepared.end <= x {
        lo := mid + 1;
      } else {
        hi := mid;
      }
    }
    k := lo;
  }

  lemma {:induction false} ScanNone(segments: seq<Segment>, q: Range)
    requires q.start <= q.end && forall i :: 0 <= i < |segments| ==>
             segments[i].prepared.start <= segments[i].prepared.end
    requires forall i :: 0 <= i < |segments| ==> !Contributes(segments[i], q)
    ensures ScanAll(segments, q) == []
    decreases |segments|
  {
    if segments != [] {
      ScanNone(segments[1..], q);
    }
  }

  lemma {:induction false} ScanAppend(a: seq<Segment>, b: seq<Segment>, q: Range)
    requires q.start <= q.end && forall i :: 0 <= i < |a + b| ==> (a + b)[i].prepared.start <= (a + b)[i].prepared.end
    requires forall i :: 0 <= i < |a| ==> a[i].prepared.start <= a[i].prepared.end
    requires forall i :: 0 <= i < |b| ==> b[i].prepared.start <= b[i].prepared.end
    ensures ScanAll(a + b, q) == ScanAll(a, q) + ScanAll(b, q)
    decreases |a|
  {
    if a == [] {
      assert a + b == b;
    } else {
      assert (a + b)[1..] == a[1..] + b;
      ScanAppend(a[1..], b, q);
    }
  }

  /** Scanning from position `i` on. */
  ghost function ScanFrom(segments: seq<Segment>, i: nat, q: Range): seq<Mapped>
    requires i <= |segments| && q.start <= q.end && forall k :: 0 <= k < |segments| ==>
             segments[k].prepared.start <= segments[k].prepared.end
  {
    ScanAll(segments[i..], q)
  }

  lemma ScanStep(segments: seq<Segment>, i: nat, q: Range)
    requires i < |segments| && q.start <= q.end && forall k :: 0 <= k < |segments| ==>
             segments[k].prepared.start <= segments[k].prepared.end
    ensures ScanFrom(segments, i, q)
            == (if Contributes(segments[i], q) then [Clip(segments[i], q)] else []) + ScanFrom(segments, i + 1, q)
  {
    assert segments[i..][0] == segments[i] && segments[i..][1..] == segments[i + 1..];
  }

  lemma ScanSkips(segments: seq<Segment>, first: nat, q: Range)
    requires first <= |segments| && q.start <= q.end && forall k :: 0 <= k < |segments| ==>
             segments[k].prepared.start <= segments[k].prepared.end
    requires forall k :: 0 <= k < first ==> segments[k].prepared.end <= q.start
    ensures ScanFrom(segments, first, q) == ScanAll(segments, q)
  {
    ScanNone(segments[..first], q);
    assert segments == segments[..first] + segments[first..];
    ScanAppend(segments[..first], segments[first..], q);
  }

  lemma ScanStops(segments: seq<Segment>, i: nat, q: Range)
    requires i <= |segments| && Contiguous(segments) && q.start <= q.end
    requires forall k :: 0 <= k < |segments| ==> segments[k].prepared.start <= segments[k].prepared.end
    requires i < |segments| ==> segments[i].prepared.start >= q.end
    ensures ScanFrom(segments, i, q) == []
  {
    hide Contiguous;
    forall j | i <= j < |segments| ensures !Contributes(segments[j], q) {
      if i < j {
        EndsGrow(segments, i, j);
      }
    }
    ScanNone(segments[i..], q);
  }

  /** Binary search to the first contributing segment, then clip until the query ends. */
  method MapRange(m: SourceMap, q: Range) returns (r: Result<seq<Mapped>>)
    requires ValidMap(m.prepared, m.sources, m.segments)
    ensures r.Err? <==> !q.Within(|m.prepared|)
    ensures forall i :: 0 <= i < |m.segments| ==> m.segments[i].prepared.start <= m.segments[i].prepared.end
    ensures r.Ok? ==> r.value == if q.start == q.end then [] else ScanAll(m.segments, q)
  {
    hide SegmentOk, OneSource, OriginsDisjoint, SourcesOk, Contiguous, Clip, ScanAll, ScanFrom;
    var segments := m.segments;
    Ordered(segments);
    if q.start > q.end {
      return Err(InvalidRange);
    }
    if q.end > |m.prepared| {
      return Err(QueryOutOfBounds);
    }
    if q.start == q.end {
      return Ok([]);
    }
    var first := PartitionPoint(segments, q.start);
    ScanSkips(segments, first, q);
    var mapped := [];
    var i := first;
    while i < |segments| && segments[i].prepared.start < q.end
      invariant first <= i <= |segments|
      invariant mapped + ScanFrom(segments, i, q) == ScanAll(segments, q)
    {
      ScanStep(segments, i, q);
      mapped := mapped + [Clip(segments[i], q)];
      i := i + 1;
    }
    ScanStops(segments, i, q);
    r := Ok(mapped);
  }

  // ---- What a query returns

  /** The pieces cover the query from `from` on, in order and without gap. */
  ghost predicate CoversFrom(ms: seq<Mapped>, from: nat, to: nat)
    decreases |ms|
  {
    if ms == [] then from == to
    else ms[0].prepared.start == from && from < ms[0].prepared.end && CoversFrom(ms[1..], ms[0].prepared.end, to)
  }

  /** The pieces of a query tile it exactly. */
  lemma {:induction false} ScanTiles(segments: seq<Segment>, i: nat, q: Range)
    requires Contiguous(segments) && i <= |segments| && q.start < q.end <= CoveredTo(segments, |segments|)
    requires forall k :: 0 <= k < |segments| ==> segments[k].prepared.start <= segments[k].prepared.end
    ensures var from := if CoveredTo(segments, i) < q.start then q.start
            else if CoveredTo(segments, i) > q.end then q.end else CoveredTo(segments, i);
            CoversFrom(ScanAll(segments[i..], q), from, q.end)
    decreases |segments| - i
  {
    if i < |segments| {
      assert segments[i..][1..] == segments[i + 1..];
      assert PieceAt(segments, i);
      ScanTiles(segments, i + 1, q);
      if Contributes(segments[i], q) {
        var ms := ScanAll(segments[i..], q);
        assert ms == [Clip(segments[i], q)] + ScanAll(segments[i + 1..], q);
        assert ms[1..] == ScanAll(segments[i + 1..], q) && ms[0] == Clip(segments[i], q);
      } else {
        assert ScanAll(segments[i..], q) == ScanAll(segments[i + 1..], q);
      }
    }
  }

  lemma QueryTiles(m: SourceMap, q: Range)
    requires ValidMap(m.prepared, m.sources, m.segments) && q.start < q.end <= |m.prepared|
    ensures (forall i :: 0 <= i < |m.segments| ==> m.segments[i].prepared.start <= m.segments[i].prepared.end)
    ensures CoversFrom(ScanAll(m.segments, q), q.start, q.end)
  {
    assert m.segments[0..] == m.segments;
    Ordered(m.segments);
    ScanTiles(m.segments, 0, q);
  }

  /**
    A copied piece names original bytes that are equal to the prepared bytes, a masked piece the
    original bytes that it blanks, and a synthetic piece names none.
    */
  ghost predicate Faithful(prepared: Bytes, sources: seq<Snapshot>, p: Mapped) {
    && p.prepared.Within(|prepared|)
    && (if p.kind.Synthetic? then p.original.None?
        else
          && p.original.Some?
          && exists k ::
               && 0 <= k < |sources|
               && sources[k].id == p.original.value.source
               && SameBytes(prepared, sources[k].bytes, p))
  }

  ghost predicate SameBytes(prepared: Bytes, source: Bytes, p: Mapped)
    requires p.prepared.Within(|prepared|) && p.original.Some? && !p.kind.Synthetic?
  {
    && p.original.value.range.Within(|source|)
    && var now, was := Slice(prepared, p.prepared), Slice(source, p.original.value.range);
       if p.kind.Copied? then now == was else MaskOf(now, was)
  }

  /** The piece is a part of the segment, of its kind and expansion, and names the same part of its origin. */
  ghost predicate PartOf(p: Mapped, s: Segment) {
    && s.prepared.start <= p.prepared.start < p.prepared.end <= s.prepared.end
    && p.kind == s.kind && p.expansion == s.expansion
    && (p.original.Some? <==> s.original.Some?)
    && (p.original.Some? ==>
          && p.original.value.source == s.original.value.source
          && p.original.value.range.start - s.original.value.range.start == p.prepared.start - s.prepared.start
          && p.original.value.range.Length() == p.prepared.Length())
  }

  lemma SubSlice(s: Bytes, r: Range, offset: nat, n: nat)
    requires r.Within(|s|) && offset + n <= r.end - r.start
    ensures s[r.start + offset..r.start + offset + n] == Slice(s, r)[offset..offset + n]
  {
    var a := s[r.start..r.end];
    var x, y := s[r.start + offset..r.start + offset + n], a[offset..offset + n];
    assert |x| == |y| && forall i :: 0 <= i < |x| ==> x[i] == y[i];
  }

  lemma MaskPart(now: Bytes, was: Bytes, from: nat, to: nat)
    requires MaskOf(now, was) && from <= to <= |was|
    ensures MaskOf(now[from..to], was[from..to])
  {
    forall i | 0 <= i < to - from ensures now[from..to][i] == now[from + i] && was[from..to][i] == was[from + i] {
    }
  }

  lemma PartSame(prepared: Bytes, source: Snapshot, s: Segment, p: Mapped)
    requires s.prepared.Within(|prepared|) && s.original.Some? && CopyOk(prepared, source, s) && PartOf(p, s)
    requires !s.kind.Synthetic?
    ensures SameBytes(prepared, source.bytes, p)
  {
    hide MaskOf;
    var o := s.original.value.range;
    var offset := p.prepared.start - s.prepared.start;
    var n := p.prepared.end - p.prepared.start;
    SubSlice(prepared, s.prepared, offset, n);
    SubSlice(source.bytes, o, offset, n);
    if s.kind.Masked? {
      MaskPart(Slice(prepared, s.prepared), Slice(source.bytes, o), offset, offset + n);
    }
  }

  lemma ClipIsPart(s: Segment, q: Range)
    requires s.prepared.start < s.prepared.end && Contributes(s, q) && q.start < q.end
    ensures PartOf(Clip(s, q), s)
  {}

  lemma ClipFaithful(prepared: Bytes, sources: seq<Snapshot>, s: Segment, q: Range)
    requires SegmentOk(prepared, sources, s) && s.prepared.start < s.prepared.end
    requires Contributes(s, q) && q.start < q.end <= |prepared|
    ensures Faithful(prepared, sources, Clip(s, q)) && PartOf(Clip(s, q), s)
  {
    ClipIsPart(s, q);
    hide Clip, SameBytes, CopyOk;
    if !s.kind.Synthetic? {
      var k :| 0 <= k < |sources| && sources[k].id == s.original.value.source && CopyOk(prepared, sources[k], s);
      PartSame(prepared, sources[k], s, Clip(s, q));
    }
  }

  lemma {:induction false} QueryFaithful(
    prepared: Bytes, sources: seq<Snapshot>, segments: seq<Segment>, q: Range, i: nat)
    returns (j: nat)
    requires q.start < q.end <= |prepared|
    requires forall k :: 0 <= k < |segments| ==> SegmentOk(prepared, sources, segments[k])
    requires forall k :: 0 <= k < |segments| ==> segments[k].prepared.start < segments[k].prepared.end
    requires i < |ScanAll(segments, q)|
    ensures Faithful(prepared, sources, ScanAll(segments, q)[i])
    ensures j < |segments| && PartOf(ScanAll(segments, q)[i], segments[j])
    decreases |segments|
  {
    hide SegmentOk, Faithful, PartOf, Clip;
    if segments != [] {
      var s := segments[0];
      if Contributes(s, q) {
        if i == 0 {
          ClipFaithful(prepared, sources, s, q);
          j := 0;
        } else {
          var n := QueryFaithful(prepared, sources, segments[1..], q, i - 1);
          j := n + 1;
        }
      } else {
        var n := QueryFaithful(prepared, sources, segments[1..], q, i);
        j := n + 1;
      }
    }
  }
}
