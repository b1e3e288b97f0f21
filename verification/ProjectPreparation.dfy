/** The whole preparation, from the caller's snapshots, bindings and options to the prepared bytes with their map. */
module ProjectPreparation {
  import opened PascalSyntax
  import opened ByteText
  import opened ConditionExpressions
  import opened SourceMaps
  import opened Directives
  import opened Preprocessor
  import opened PreprocessorLaws
  import opened PreparationRuns
  import opened DirectiveLexer
  import opened SourcePreparation
  import ProjectMeaning

  // ---- What the caller's input stands for

  ghost predicate NamesOk(options: Options) {
    AllNames(options.defined) && AllNames(options.undefined) && !Conflict(options.defined, options.undefined)
  }

  ghost predicate SourcesOk(sources: seq<Snapshot>, options: Options) {
    DistinctIds(sources) && TotalBytes(sources) <= options.sourceBytes
  }

  /** The loaded texts, with the root among them. */
  ghost predicate TextsOf(root: SourceId, sources: seq<Snapshot>, options: Options, texts: map<SourceId, Text>) {
    && SourcesOk(sources, options) && Catalogued(texts, sources, options)
    && root != "" && root in texts
  }

  /** Splitting the root and then the sources of the bindings. */
  function OpeningOf(root: SourceId, texts: map<SourceId, Text>, bindings: seq<Binding>): Opening
    requires root in texts
  {
    Opening(Usage(|texts[root].bytes| + BindingCost(texts, bindings, {root}), 0, 0, 0),
            {root} + BindingSources(bindings))
  }

  /** The root and the bindings are in order, and can be split in time. */
  ghost predicate BindingsOk(root: SourceId, texts: map<SourceId, Text>, bindings: seq<Binding>, limits: Limits)
    requires root in texts
  {
    && texts[root].items.Done? && (forall i :: 0 <= i < |bindings| ==> BindingOk(texts, bindings[i]))
    && BoundOnce(bindings) && OpeningOf(root, texts, bindings).usage.work <= limits.work
  }

  /** The caller's input is in order, and this is the project and the symbols it stands for. */
  ghost predicate Admits(
    root: SourceId, sources: seq<Snapshot>, bindings: seq<Binding>, options: Options, p: Project, symbols: Symbols)
  {
    && TextsOf(root, sources, options, p.texts) && BindingsOk(root, p.texts, bindings, options.limits)
    && Bound(p.bindings, bindings) && p.limits == options.limits
    && NamesOk(options) && Knows(symbols.values, options.defined, options.undefined)
    && symbols.completeness == options.completeness
  }

  /** The machine that then starts. */
  function StartOf(root: SourceId, bindings: seq<Binding>, p: Project, symbols: Symbols): Machine
    requires root in p.texts
  {
    var o := OpeningOf(root, p.texts, bindings);
    Start(root, symbols, o.usage, o.lexed)
  }

  // ---- One project, one environment

  lemma TextsAgree(sources: seq<Snapshot>, options: Options, a: map<SourceId, Text>, b: map<SourceId, Text>)
    requires DistinctIds(sources) && Catalogued(a, sources, options) && Catalogued(b, sources, options)
    ensures a == b
  {
    hide LexedAs, DistinctIds;
    forall id | id in a ensures id in b && a[id] == b[id] {
      TextAgrees(sources, options, a, b, id);
    }
    forall id | id in b ensures id in a {
      TextAgrees(sources, options, b, a, id);
    }
  }

  lemma TextAgrees(
    sources: seq<Snapshot>, options: Options, a: map<SourceId, Text>, b: map<SourceId, Text>, id: SourceId)
    requires DistinctIds(sources) && Catalogued(a, sources, options) && Catalogued(b, sources, options) && id in a
    ensures id in b && a[id] == b[id]
  {
    hide LexedAs;
    assert Listed(sources, id, a[id].bytes);
    var i :| 0 <= i < |sources| && sources[i] == Snapshot(id, a[id].bytes);
    assert sources[i].id in b;
    assert Listed(sources, id, b[id].bytes);
    var j :| 0 <= j < |sources| && sources[j] == Snapshot(id, b[id].bytes);
    assert i == j;
    assert SplitOf(a[id], options) && SplitOf(b[id], options);
    LexedOnce(a[id].bytes, a[id].items, b[id].items, options.limits.directives, options.expressionDepth);
  }

  lemma TablesAgree(bindings: seq<Binding>, a: map<(SourceId, Range), SourceId>, b: map<(SourceId, Range), SourceId>)
    requires Bound(a, bindings) && Bound(b, bindings)
    ensures a == b
  {
    forall key | key in a ensures key in b && a[key] == b[key] {
      var i :| 0 <= i < |bindings| && Key(bindings[i]) == key;
      assert Key(bindings[i]) in b;
    }
    forall key | key in b ensures key in a {
      var i :| 0 <= i < |bindings| && Key(bindings[i]) == key;
      assert Key(bindings[i]) in a;
    }
  }

  lemma SymbolsAgree(options: Options, a: map<string, bool>, b: map<string, bool>)
    requires Knows(a, options.defined, options.undefined) && Knows(b, options.defined, options.undefined)
    ensures a == b
  {
    hide Mentions;
    assert forall n :: n in a <==> n in b;
    forall n | n in a ensures a[n] == b[n] {
      assert Mentions(options.defined, n) || Mentions(options.undefined, n);
    }
  }

  /** An input stands for one project and one environment. */
  lemma AdmittedOnce(
    root: SourceId, sources: seq<Snapshot>, bindings: seq<Binding>, options: Options,
    p: Project, symbols: Symbols, p': Project, symbols': Symbols)
    requires Admits(root, sources, bindings, options, p, symbols)
    requires Admits(root, sources, bindings, options, p', symbols')
    ensures p == p' && symbols == symbols'
  {
    hide Catalogued, DistinctIds, Bound, Knows, BindingOk, BoundOnce;
    TextsAgree(sources, options, p.texts, p'.texts);
    TablesAgree(bindings, p.bindings, p'.bindings);
    SymbolsAgree(options, symbols.values, symbols'.values);
  }

  // ---- Admitting

  ghost predicate Admissible(root: SourceId, sources: seq<Snapshot>, bindings: seq<Binding>, options: Options) {
    exists p, symbols :: Admits(root, sources, bindings, options, p, symbols)
  }

  /** Load the sources; the root must be among them. */
  method LoadSources(root: SourceId, sources: seq<Snapshot>, options: Options) returns (r: Outcome<map<SourceId, Text>>)
    ensures r.Done? ==> TextsOf(root, sources, options, r.value)
    ensures r.Fail? ==> forall texts :: !TextsOf(root, sources, options, texts)
  {
    hide Catalogued, DistinctIds, TotalBytes;
    if root == "" {
      return Fail(EmptyRootId);
    }
    var texts := Catalog(sources, options);
    if texts.Fail? {
      return Fail(texts.fault);
    }
    forall other | TextsOf(root, sources, options, other) ensures other == texts.value {
      TextsAgree(sources, options, other, texts.value);
    }
    if root !in texts.value {
      return Fail(RootNotLoaded);
    }
    r := texts;
  }

  /** The project and symbols of an input that is in order, and a fault for every other. */
  method Admit(root: SourceId, sources: seq<Snapshot>, bindings: seq<Binding>, options: Options)
    returns (r: Outcome<(Project, Symbols, Opening)>)
    ensures r.Done? ==>
              && Admits(root, sources, bindings, options, r.value.0, r.value.1)
              && r.value.2 == OpeningOf(root, r.value.0.texts, bindings) && OpeningOk(r.value.0.texts, r.value.2)
    ensures r.Fail? ==> !Admissible(root, sources, bindings, options)
  {
    hide Catalogued, Knows, Bound, BoundOnce, BindingOk, BindingCost, BindingSources, DistinctIds, TotalBytes;
    hide Conflict, AllNames;
    var loaded := LoadSources(root, sources, options);
    if loaded.Fail? {
      return Fail(loaded.fault);
    }
    var texts := loaded.value;
    var symbols := InitialSymbols(options);
    if symbols.Fail? {
      return Fail(symbols.fault);
    }
    forall p, s | Admits(root, sources, bindings, options, p, s) ensures p.texts == texts {
      TextsAgree(sources, options, p.texts, texts);
    }
    var first := LexFirst(texts, options.limits, root, Opening(Usage(0, 0, 0, 0), {}));
    if first.Fail? {
      return Fail(first.fault);
    }
    assert first.value.lexed == {root};
    var table := ValidateBindings(texts, options.limits, bindings, first.value);
    if table.Fail? {
      return Fail(table.fault);
    }
    r := Done((Project(texts, table.value.0, options.limits), symbols.value, table.value.1));
  }

  // ---- The result

  /** What the machine leaves becomes a map, which is refused when a source has no name. */
  ghost function MapOf(end: Outcome<Machine>, sources: seq<Snapshot>): Outcome<SourceMap> {
    if end.Fail? then Fail(end.fault)
    else if !AllNamed(sources) then Fail(MapRejected)
    else Done(SourceMap(end.value.output, sources, end.value.segments))
  }

  lemma AdmittedSound(
    root: SourceId, sources: seq<Snapshot>, bindings: seq<Binding>, options: Options, p: Project,
    symbols: Symbols)
    requires Admits(root, sources, bindings, options, p, symbols)
    ensures root in p.texts && p.limits == options.limits
    ensures Sound(p, StartOf(root, bindings, p, symbols)) && Lists(sources, p)
  {
    hide Catalogued, Knows, Bound, BoundOnce, BindingCost, DistinctIds, TotalBytes, Conflict, AllNames, Sound, Lists;
    CataloguedProject(p, sources, options);
    var o := OpeningOf(root, p.texts, bindings);
    forall id | id in o.lexed ensures Loaded(p, id) {
      if id != root {
        var i :| 0 <= i < |bindings| && bindings[i].source == id;
        assert BindingOk(p.texts, bindings[i]);
      }
    }
    StartSound(p, root, symbols, o.usage, o.lexed);
  }

  /** The prepared source of an input, if it has one. */
  ghost function Prepared(
    root: SourceId, sources: seq<Snapshot>, bindings: seq<Binding>, options: Options): Option<SourceMap>
  {
    if !Admissible(root, sources, bindings, options) then None
    else
      var p, symbols :| Admits(root, sources, bindings, options, p, symbols);
      AdmittedSound(root, sources, bindings, options, p, symbols);
      var r := MapOf(Prepare(p, StartOf(root, bindings, p, symbols)), sources);
      if r.Done? then Some(r.value) else None
  }

  /** It is the same for whichever project and environment the input is taken to stand for. */
  lemma PreparedAs(
    root: SourceId, sources: seq<Snapshot>, bindings: seq<Binding>, options: Options, p: Project,
    symbols: Symbols)
    requires Admits(root, sources, bindings, options, p, symbols)
    ensures root in p.texts && Sound(p, StartOf(root, bindings, p, symbols))
    ensures var r := MapOf(Prepare(p, StartOf(root, bindings, p, symbols)), sources);
            Prepared(root, sources, bindings, options) == if r.Done? then Some(r.value) else None
  {
    hide Admits, Prepare, Sound;
    AdmittedSound(root, sources, bindings, options, p, symbols);
    forall q, s | Admits(root, sources, bindings, options, q, s) ensures q == p && s == symbols {
      AdmittedOnce(root, sources, bindings, options, q, s, p, symbols);
    }
  }

  ghost predicate RunsThrough(root: SourceId, bindings: seq<Binding>, p: Project, symbols: Symbols) {
    root in p.texts && Sound(p, StartOf(root, bindings, p, symbols))
    && Prepare(p, StartOf(root, bindings, p, symbols)).Done?
  }

  ghost predicate Reports(
    root: SourceId, sources: seq<Snapshot>, bindings: seq<Binding>, p: Project, symbols: Symbols, r: Outcome<SourceMap>)
  {
    && root in p.texts && Sound(p, StartOf(root, bindings, p, symbols))
    && r == MapOf(Prepare(p, StartOf(root, bindings, p, symbols)), sources)
  }

  /** The result is what the project means. */
  ghost predicate Answers(
    root: SourceId, sources: seq<Snapshot>, bindings: seq<Binding>, p: Project, symbols: Symbols, r: Outcome<SourceMap>)
  {
    && ProjectMeaning.Readable(p) && Loaded(p, root)
    && var o := OpeningOf(root, p.texts, bindings);
       ProjectMeaning.Delivers(ProjectMeaning.MeaningOf(p, root, symbols, o.usage, o.lexed), p.limits, sources, r)
  }

  /**
    The preparation succeeds exactly when the input is in order, every source has a name and
    the machine runs through, and then delivers what the machine wrote with a valid map of it.
    When the input is in order, a failure is the machine's own, or the map's.
    */
  method PrepareProject(root: SourceId, sources: seq<Snapshot>, bindings: seq<Binding>, options: Options)
    returns (r: Outcome<SourceMap>)
    ensures r.Done? <==>
              && AllNamed(sources)
              && exists p, symbols ::
                   && Admits(root, sources, bindings, options, p, symbols)
                   && RunsThrough(root, bindings, p, symbols)
    ensures forall p, symbols :: Admits(root, sources, bindings, options, p, symbols) ==>
            Reports(root, sources, bindings, p, symbols, r) && Answers(root, sources, bindings, p, symbols, r)
    ensures Prepared(root, sources, bindings, options) == if r.Done? then Some(r.value) else None
    ensures r.Done? ==>
              && ValidMap(r.value.prepared, sources, r.value.segments)
              && |r.value.prepared| <= options.limits.outputBytes
  {
    hide Admits, ValidMap, Sound, AllNamed, Prepare, Prepared, OpeningOf;
    var admitted := Admit(root, sources, bindings, options);
    if admitted.Fail? {
      NothingPrepared(root, sources, bindings, options);
      return Fail(admitted.fault);
    }
    var p, symbols, o := admitted.value.0, admitted.value.1, admitted.value.2;
    AdmittedSound(root, sources, bindings, options, p, symbols);
    r := PrepareSource(p, root, symbols, o.usage, o.lexed, sources);
    PreparedAs(root, sources, bindings, options, p, symbols);
    ProjectMeaning.PrepareIsMeaning(p, root, symbols, o.usage, o.lexed, sources, r);
    hide ProjectMeaning.Delivers, ProjectMeaning.MeaningOf, ProjectMeaning.Readable;
    forall q, s | Admits(root, sources, bindings, options, q, s) ensures q == p && s == symbols {
      AdmittedOnce(root, sources, bindings, options, q, s, p, symbols);
    }
    if r.Done? {
      PreparedBudget(p, StartOf(root, bindings, p, symbols));
    }
  }

  lemma NothingPrepared(root: SourceId, sources: seq<Snapshot>, bindings: seq<Binding>, options: Options)
    requires !Admissible(root, sources, bindings, options)
    ensures Prepared(root, sources, bindings, options).None?
  {}

  lemma CataloguedProject(p: Project, sources: seq<Snapshot>, options: Options)
    requires Catalogued(p.texts, sources, options) && DistinctIds(sources)
    ensures ProjectOk(p) && Lists(sources, p)
  {
    hide LexedAs, Lexes;
    forall id | id in p.texts
      ensures Lexes(p.texts[id]) && exists k :: 0 <= k < |sources| && sources[k] == Snapshot(id, p.texts[id].bytes)
    {
      SplitLexes(p.texts[id].bytes, p.texts[id].items, options.limits.directives, options.expressionDepth);
      assert Listed(sources, id, p.texts[id].bytes);
    }
  }

  lemma PreparedBudget(p: Project, m: Machine)
    requires Sound(p, m) && Prepare(p, m).Done?
    ensures |Prepare(p, m).value.output| <= p.limits.outputBytes
  {
    RunSound(p, m);
  }

  // ---- Partial and complete environments

  /** The caller who left symbols open now settles each of them, and changes nothing else. */
  ghost predicate Settles(partial: Options, complete: Options) {
    && partial.completeness.Partial? && complete.completeness.Complete? && NamesOk(complete)
    && complete == partial.(defined := complete.defined, undefined := complete.undefined,
                            completeness := complete.completeness)
    && (forall n :: Mentions(partial.defined, n) ==> Mentions(complete.defined, n))
    && (forall n :: Mentions(partial.undefined, n) ==> Mentions(complete.undefined, n))
  }

  ghost function Names(list: seq<Bytes>): (names: set<string>)
    ensures forall n :: n in names <==> Mentions(list, n)
  {
    set i | 0 <= i < |list| && SymbolOf(list[i]).Some? :: SymbolOf(list[i]).value
  }

  ghost function ValuesOf(options: Options): (values: map<string, bool>)
    requires NamesOk(options)
    ensures Knows(values, options.defined, options.undefined)
  {
    map n | n in Names(options.defined) + Names(options.undefined) :: n in Names(options.defined)
  }

  lemma SettledKnows(partial: Options, complete: Options, known: Symbols)
    requires Settles(partial, complete)
    requires Knows(known.values, partial.defined, partial.undefined) && known.completeness == partial.completeness
    ensures Completes(known, Symbols(ValuesOf(complete), complete.completeness))
  {
    hide Mentions, ValuesOf;
    var values := ValuesOf(complete);
    forall n | n in known.values ensures n in values && values[n] == known.values[n] {
      assert Mentions(partial.defined, n) || Mentions(partial.undefined, n);
    }
  }

  /**
    A preparation that succeeds with symbols left open delivers the same bytes and the same map
    however the caller settles them.
    */
  lemma PreparedAgrees(
    root: SourceId, sources: seq<Snapshot>, bindings: seq<Binding>, partial: Options, complete: Options)
    requires Settles(partial, complete) && Prepared(root, sources, bindings, partial).Some?
    ensures Prepared(root, sources, bindings, complete) == Prepared(root, sources, bindings, partial)
  {
    hide Catalogued, Knows, Bound, BindingsOk, DistinctIds, Prepare, Sound, Prepared, OpeningOf, NamesOk;
    PreparedAdmits(root, sources, bindings, partial);
    var p, known :| Admits(root, sources, bindings, partial, p, known);
    var settled := Symbols(ValuesOf(complete), complete.completeness);
    SettledKnows(partial, complete, known);
    CataloguedSame(p.texts, sources, partial, complete);
    assert Admits(root, sources, bindings, complete, p, settled);
    PreparedAs(root, sources, bindings, partial, p, known);
    PreparedAs(root, sources, bindings, complete, p, settled);
    var o := OpeningOf(root, p.texts, bindings);
    PartialAgreesWithComplete(p, root, o.usage, o.lexed, known, settled);
  }

  lemma PreparedAdmits(root: SourceId, sources: seq<Snapshot>, bindings: seq<Binding>, options: Options)
    requires Prepared(root, sources, bindings, options).Some?
    ensures Admissible(root, sources, bindings, options)
  {}

  lemma CataloguedSame(texts: map<SourceId, Text>, sources: seq<Snapshot>, a: Options, b: Options)
    requires Catalogued(texts, sources, a) && a.limits == b.limits && a.expressionDepth == b.expressionDepth
    ensures Catalogued(texts, sources, b)
  {
    forall id | id in texts ensures SplitOf(texts[id], b) && Listed(sources, id, texts[id].bytes) {
      assert SplitOf(texts[id], a);
    }
  }
}
