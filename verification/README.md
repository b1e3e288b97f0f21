# A model of lint4d's control-flow graphs, preprocessor and formatter

lint4d checks Object Pascal sources; fmt4d formats them. This project models the
parts of both that compute most and proves what they promise, for every input.

- **Control-flow graphs.** `CfgBuilder` is the builder: a class whose methods walk
  structured statements, grow a graph and return a flow, which is an optional normal
  end with the transfers still pending. Finally bodies are cloned per continuation and
  memoised. `StructuredRuns` is the meaning of statements, `Executions` the same with
  real exception classes. The main result, `CfgBuilder.BuildScope`, has no
  precondition: runs of a routine and paths of its graph are the same, with the cache
  on. A trace lists statement references; the ways taken, which a path tells by the
  kinds of its edges; and where a finally body starts, its scope and the completion it
  will resume. `ProgramPoints` says where a statement stands and what the syntax lets
  follow it there, `Unwinding` what follows an abrupt completion: which cleanups run,
  in which order, and where it goes on. `FinalizerPaths` and `RoutineTheorems` carry
  both over to the paths of the finished graph. The laws modules between them hold one
  construct each.
- **Exception types.** `ExceptionTypes` is the three-valued matching of handlers and
  its soundness over class hierarchies, and says exactly when it is definite.
- **Preprocessor.** `Preprocessor` is the machine of include frames, conditional
  groups, symbols, budgets and output as a step function; `PreprocessorLaws` says what
  every step keeps, `PreparationRuns` what whole runs give, `BranchHistories` how the
  branches of a group follow each other, `IfTrees` what a source without includes
  means and `ProjectMeaning` what a project means, by recursion over sources and
  includes. `SourcePreparation` is the imperative form and `ProjectPreparation` its
  front end. `ConditionExpressions`, `Directives` and `DirectiveLexer` read conditions,
  directives and sources.
- **Source maps.** `SourceMaps` is the validating constructor and the range query.
- **Queries and summaries.** `PathQueries` and `SummaryComputation`.
- **Formatter.** `LayoutDocs` is the document machine, `LayoutRenderer` its imperative
  form, `LayoutMeaning` what it writes, by recursion over the document, `LayoutLaws` and
  `LayoutTheorems` what a group chosen flat becomes, `LineStarts` and `LineStartLimits`
  when that holds at the start of a line.

Conventions. Statement references stand for byte ranges. A dictionary or vector that the
program mutates is a `map` or `seq` field that methods reassign; ghost fields record for
each block which traces may follow it and which cleanup scopes surround it. A finalizer
block of the model names the scope and the completion it was made for; in the code these
are in the key of its cache entry. Whether a name denotes a class, and which is its
parent, is input: the type index maps a class to its parent, to none, or to nothing
known. Errors are values; their messages and positions are dropped, and where several
errors of one check differ only in their message they are one fault.

Where code and documentation differ, the code is followed. The formatter's fit check
is described as measuring the rest of the current line. Mid-line that is what it does.
At the start of a line it measures with the indentation of the group and without a last
token, while the first token brings its own indentation, raw text brings none, further
groups and fills are decided at their own level, and the last token of the line before
is still remembered. So a group that is chosen flat there keeps its line if what comes
first is safe, which `LineStarts.StackStart` decides before anything is written; for
each thing that can come first, `LineStartLimits` proves that the condition is exact:
when it fails, some document that is chosen flat breaks or overflows.

Fill is documented with `Line` and `Hardline` separators; the code also treats
`PreservedLine`, and so does the model. Break and Continue outside every loop leave the
routine, as the code has it. The conditional stack of the preprocessor is shared by all
include frames, and directives in dead text are still read and can still fail.

## Model

| member | source | states |
|---|---|---|
| ExceptionTypes.WalkParents | crates/cfg-pascal/src/exception_types.rs:1018-1062 | the loop over `current` and `seen` returns what the recursive walk of the parent chain returns, and terminates on cyclic hierarchies |
| ExceptionTypes.IsSubtypeDecides | crates/cfg-pascal/src/exception_types.rs:1018-1062 | Yes exactly when the declared chain of parents comes to the handler class, No exactly when it ends in a class without a parent before; a cycle or an unknown parent gives neither |
| ExceptionTypes.SubtypeFromSound | crates/cfg-pascal/src/exception_types.rs:1018-1062 | a definite answer of the walk is true of every class hierarchy that agrees with the declarations |
| ExceptionTypes.AncestorsComparable | crates/cfg-pascal/src/exception_types.rs:1064-1074 | single inheritance: two ancestors of one class are related, which is why a bound can rule a handler out |
| ExceptionTypes.MatchHandlerSound | crates/cfg-pascal/src/exception_types.rs:419-433 | for every class the raised fact allows, Yes means it descends from the handler class and No means it does not, subtype bounds included |
| ExceptionTypes.MatchHandlerExact | crates/cfg-pascal/src/exception_types.rs:419-433 | from the declarations alone. For an exact class: Yes if and only if its chain of parents comes to the handler class, No if and only if the chain ends without it. For a bound: Yes if and only if its chain comes to the handler class, No if and only if both chains end and neither comes to the other class. Otherwise, and for anything unknown, undecided |
| ExceptionTypes.ComputeHandlerContext | crates/cfg-pascal/src/exception_types.rs:439-468 | the loop over incoming facts keeps the exact class only when all facts that can reach the handler are that one class |
| ExceptionTypes.HandlerContextCovers | crates/cfg-pascal/src/exception_types.rs:439-468 | the fact given to a typed handler allows every class that the handler really catches |
| ExceptionTypes.HandlerContextExact | crates/cfg-pascal/src/exception_types.rs:439-468 | the exact class if and only if it is the only incoming fact that can reach the handler, otherwise the bound that the handler declares, and nothing for a handler of unknown class |
| StructuredRuns.RunCovered | crates/cfg-pascal/src/pascal_builder.rs:1428-1564 | every outcome of a run is one of the outcomes predicted for the statement, so nothing can complete in a way the builder does not carry |
| StructuredRuns.RunSeqCovered | crates/cfg-pascal/src/pascal_builder.rs:964-1045 | the same for statement sequences |
| StructuredRuns.DispatchExact | crates/cfg-pascal/src/pascal_builder.rs:2103-2147 | for any raised fact and any handlers: a handler may receive it if and only if no earlier one surely catches it and it does not surely miss it, and it may go on if and only if there are handlers and none surely catches it, all by the declared parents alone |
| Continuations.TryFinallyFeeds | crates/cfg-pascal/src/pascal_builder.rs:1856-1953 | what may follow a protected body is its cleanup and then the completion that was interrupted |
| Continuations.TryExceptFeeds | crates/cfg-pascal/src/pascal_builder.rs:2078-2166 | what may follow a guarded body is a handler that may catch, or the exception going on |
| Continuations.LoopTurnFeeds | crates/cfg-pascal/src/pascal_builder.rs:1142-1194 | what may follow a loop body is another turn, and Break leaves the loop |
| Continuations.RepeatTurn | crates/cfg-pascal/src/pascal_builder.rs:1196-1246 | what may follow a repeat body is its condition, then another turn or the end |
| CfgBuilder.BuildContext.constructor | crates/cfg-pascal/src/pascal_builder.rs:274-361 | a new context holds entry, exit and body blocks with the entry edge, no open loops, scopes, handlers or cached bodies |
| CfgBuilder.BuildContext.NewBlock | crates/cfg-pascal/src/pascal_builder.rs:632-635 | a block is appended; all other blocks and edges stay; the world stays sound |
| CfgBuilder.BuildContext.AddEdge | crates/cfg-pascal/src/pascal_builder.rs:2353-2355 | an edge is added with its kind; behind what its source holds and the event of its kind, it may only lead where the future of its source allows, and its kind must suit the block it enters |
| CfgBuilder.BuildContext.PrepareStatementBlock | crates/cfg-pascal/src/pascal_builder.rs:2348-2356 | a block that already holds a statement is followed by a fresh one, so that every statement can raise from a block of its own |
| CfgBuilder.BuildContext.WalkLeaf | crates/cfg-pascal/src/pascal_builder.rs:1428-1564 | simple statements, Exit, Break, Continue, raise and re-raise: every run lands on the normal end or a pending transfer with its outcome, and on no others |
| CfgBuilder.BuildContext.WalkEvaluatedRaise | crates/cfg-pascal/src/pascal_builder.rs:1445-1480 | a raise whose exception expression may itself raise keeps both exceptions apart |
| CfgBuilder.BuildContext.WalkSeq | crates/cfg-pascal/src/pascal_builder.rs:964-1045 | a sequence: each statement is walked from the normal end of the one before, or from a fresh unreachable block when there is none |
| CfgBuilder.BuildContext.WalkIfElse | crates/cfg-pascal/src/pascal_builder.rs:1075-1095 | both branches from one head block, joined: a run of the then part goes by a ConditionalTrue edge and one of the else part by ConditionalFalse, every run lands, and every path is a run with the same branch |
| CfgBuilder.BuildContext.WalkIfOnly | crates/cfg-pascal/src/pascal_builder.rs:1097-1118 | the branch by ConditionalTrue or the fall-through by ConditionalFalse, joined |
| CfgBuilder.BuildContext.JoinEnds | crates/cfg-pascal/src/pascal_builder.rs:1120-1140 | normal ends of branches lead to one join block, or there is none when no branch completes |
| CfgBuilder.BuildContext.WalkLoop | crates/cfg-pascal/src/pascal_builder.rs:1142-1194 | header, body by ConditionalTrue, back by LoopBack from its normal end, and exit by LoopExit; Break and Continue of this loop are consumed |
| CfgBuilder.BuildContext.WalkRepeat | crates/cfg-pascal/src/pascal_builder.rs:1196-1246 | body first, then keyword and condition, then back by LoopBack or on by LoopExit |
| CfgBuilder.BuildContext.RouteJumps | crates/cfg-pascal/src/pascal_builder.rs:1171-1188 | pending jumps aimed at this loop become edges; every other transfer stays pending |
| CfgBuilder.BuildContext.WalkCase | crates/cfg-pascal/src/pascal_builder.rs:1249-1310 | all arms and the fallback from one selector block, by CaseArm edges |
| CfgBuilder.BuildContext.WalkWith | crates/cfg-pascal/src/pascal_builder.rs:1312-1340 | the entity block, then the body |
| CfgBuilder.BuildContext.BuildHandlers | crates/cfg-pascal/src/pascal_builder.rs:2177-2238 | each handler body is walked with the fact that its incoming exceptions imply |
| CfgBuilder.BuildContext.DispatchExceptions | crates/cfg-pascal/src/pascal_builder.rs:2103-2147 | each pending exception gets a throw edge to every handler that may catch it and to no other, in the order of the handlers up to the first that surely does, and stays pending if and only if none surely does |
| CfgBuilder.BuildContext.WalkTryExcept | crates/cfg-pascal/src/pascal_builder.rs:2078-2166 | try..except: every run lands, every path is a run, and the outcomes are the predicted ones |
| FinalizerGroups.DedupTransfers | crates/cfg-pascal/src/pascal_builder.rs:1844-1854 | the same transfers, each once, first occurrences kept in order |
| FinalizerGroups.GroupInputs | crates/cfg-pascal/src/pascal_builder.rs:1871-1900 | inputs that leave the scope are grouped by continuation, each key once, the groups in the order of their first inputs and each with its inputs in order; the rest pass through unchanged |
| CfgBuilder.BuildContext.WalkOrReuse | crates/cfg-pascal/src/pascal_builder.rs:1955-2054 | a finally body from the cache or from a fresh walk: either way its entry block continues with the cleanup and then the requested continuation |
| CfgBuilder.BuildContext.FinishGroup | crates/cfg-pascal/src/pascal_builder.rs:1902-1948 | all inputs of a group enter its finalizer, exceptions by a throw and other completions by FinallyEntry; when it completes normally the continuation it was entered with resumes, otherwise the finalizer's own transfer replaces it |
| CfgBuilder.BuildContext.WalkTryFinally | crates/cfg-pascal/src/pascal_builder.rs:1856-1953 | try..finally with the cache on: every run lands, every path is a run, and the outcomes are the predicted ones |
| CfgBuilder.BuildContext.WalkStmt | crates/cfg-pascal/src/pascal_builder.rs:1428-1564 | the same for every statement, by its kind |
| CfgBuilder.BuildContext.RouteTransfer | crates/cfg-pascal/src/pascal_builder.rs:647-679 | at the boundary of a routine a pending transfer leads to the exit block, by a throw exactly if it is an exception |
| CfgBuilder.BuildContext.FinishFlow | crates/cfg-pascal/src/pascal_builder.rs:637-645 | everything still pending gets its edge to the exit block |
| CfgBuilder.BuildContext.WalkRoutine | crates/cfg-pascal/src/pascal_builder.rs:274-361 | the finished graph has a path for every run and a run for every path: the same statements, the same branches, loop turns, arms and throws as the kinds of the edges tell, and each finally body with the scope it belongs to and the completion it was entered with |
| CfgBuilder.BuildScope | crates/cfg-pascal/src/pascal_builder.rs:274-361 | for every routine body: each run is an entry-to-exit path and each entry-to-exit path is a run, with the same statements in the same order, the same branch at every condition, loop head and selector as the edge kinds tell, the same throws, and each finally body at the place where it starts with the completion it resumes; for the numbered body also with its scope |
| ScopeNumbering.NumberSeqDistinct | crates/cfg-pascal/src/pascal_builder.rs:362-460 | the prepass gives every try..finally of a routine its own identity |
| NumberingLaws.NumberSeqErased | crates/cfg-pascal/src/pascal_builder.rs:362-460 | numbering changes nothing but the scope identities |
| NumberingLaws.AlikeSeqRun | crates/cfg-pascal/src/pascal_builder.rs:362-460 | bodies that differ only in scope identities have the same runs, event by event, up to those identities |
| TryFinallyLaws.CachedFinalizes | crates/cfg-pascal/src/pascal_builder.rs:1955-2054 | a cached body at a known continuation serves as the finalizer of this site |
| TryFinallyLaws.FinalizerFresh | crates/cfg-pascal/src/pascal_builder.rs:1955-2054 | while a finally body is walked its own key is never looked up, so no half-built body is reused |
| TryFinallyLaws.MemoiseStep | crates/cfg-pascal/src/pascal_builder.rs:2040-2054 | storing a walked body keeps every other cached body valid |
| FinallyFlowLaws.TryFinallySimulates | crates/cfg-pascal/src/pascal_builder.rs:1856-1953 | when all groups are finished, every run of the whole try..finally lands on the flow that is returned |
| FinallyFlowLaws.TryFinallyPredicted | crates/cfg-pascal/src/pascal_builder.rs:1856-1953 | the returned flow carries exactly the outcomes of the statement |
| TryExceptLaws.TryExceptSimulates | crates/cfg-pascal/src/pascal_builder.rs:2078-2166 | when all exceptions are dispatched, every run of the whole try..except lands on the flow that is returned |
| TryExceptLaws.TryExceptPredicted | crates/cfg-pascal/src/pascal_builder.rs:2078-2166 | the returned flow carries exactly the outcomes of the statement |
| LoopLaws.LoopSimulates | crates/cfg-pascal/src/pascal_builder.rs:1142-1194 | runs of any number of turns land on the flow of the loop |
| LoopLaws.RepeatSimulates | crates/cfg-pascal/src/pascal_builder.rs:1196-1246 | runs of any number of turns land on the flow of the repeat loop |
| RoutineLaws.RoutedRuns | crates/cfg-pascal/src/pascal_builder.rs:637-679 | with all completions led to the exit, every run is a path to the exit |
| RoutineLaws.PathsStayAllowed | crates/cfg-pascal/src/pascal_builder.rs:637-679 | from any block, a path to the exit leaves a trace behind, edge kinds included, that the future recorded for the block allows |
| RoutineLaws.NoJumpsLeft | crates/cfg-pascal/src/pascal_builder.rs:672-677 | no Break or Continue is pending at the boundary of a routine |
| RoutineLaws.BoundaryMark | crates/cfg-pascal/src/pascal_builder.rs:647-679 | the edge to the exit is a throw if and only if the completion it carries is an exception |
| ProgramPoints.RunExplained | crates/cfg-pascal/src/pascal_builder.rs:1428-1564 | every event of every run belongs to a statement at a point of the routine: a visited reference is followed by a run of its statement and what the syntax lets follow there; a branch, a turn, a way back or out, an arm or a throw comes right after the statement that decides it and is followed by exactly that part of it; a finally body starts right after a run of its try body, with the completion of that run |
| Unwinding.Unwinds | crates/cfg-pascal/src/pascal_builder.rs:1856-1953 | whatever follows an abrupt completion is: the cleanups of the try..finally statements between it and the construct that deals with it, innermost first, each ended before the next starts; then what may follow at that construct, or the completion of a cleanup that ended abruptly |
| Unwinding.Rewinds | crates/cfg-pascal/src/pascal_builder.rs:1856-1953 | and every such trace may follow it |
| Unwinding.JumpsInnermost | crates/cfg-pascal/src/pascal_builder.rs:1493-1522 | Break and Continue are dealt with by the innermost loop around them: one goes on as after the loop, the other at its head |
| Unwinding.FollowsInOrder | crates/cfg-pascal/src/pascal_builder.rs:1856-1953 | however a statement completes, the cleanups of all try..finally statements around it follow, innermost first, one ended before the next starts |
| Unwinding.PointScopes | crates/cfg-pascal/src/pascal_builder.rs:362-460 | in a numbered routine no cleanup scope is around a statement twice, or both around and inside it |
| Unwinding.JumpLeavesExactly | crates/cfg-pascal/src/constructs.rs:244-251 | a jump whose target scopes are those around its innermost loop leaves, by the test of the code, exactly the scopes whose cleanups must run on its way |
| FinalizerPaths.CleanupOnPath | crates/cfg-pascal/src/pascal_builder.rs:1902-1948 | on every entry-to-exit path, each finalizer block comes right after a run of its try body that completed as the block says, by a throw exactly for an exception; the path goes on with a whole run of the cleanup and then with what may follow that same completion at the statement, or with the own completion of the cleanup |
| FinalizerPaths.CleanupHasBlock | crates/cfg-pascal/src/pascal_builder.rs:1955-2054 | and every finally body that a path runs starts in a finalizer block for its scope and completion |
| FinalizerPaths.WayOnPath | crates/cfg-pascal/src/pascal_builder.rs:1075-2166 | what the kind of an edge says on every entry-to-exit path: the statement that decides has just been visited, or its body has just completed, and the rest of the path is what may follow this decision; a throw carries an exception, to a handler that may receive it, into a cleanup or out of the routine |
| FinalizerPaths.BranchOnPath | crates/cfg-pascal/src/pascal_builder.rs:1075-1168 | behind a ConditionalTrue edge the path runs the then part of the condition just visited, or the body of the loop; behind ConditionalFalse the else part, or what follows the statement when there is none |
| FinalizerPaths.VisitOnPath | crates/cfg-pascal/src/pascal_builder.rs:1428-1564 | each statement reference on an entry-to-exit path belongs to a statement of the routine, and the rest of the path is a run of that statement and what may follow it there |
| FinalizerPaths.UnwindsInOrder | crates/cfg-pascal/src/pascal_builder.rs:1856-1953 | behind each reference the same path runs the cleanups of all try..finally statements around it, innermost first, each from its start to its end before the next starts, each then resuming what it was entered with |
| FinalizerPaths.FinalizersDominate | crates/cfg-pascal/src/pascal_builder.rs:1856-1953 | every entry-to-exit path through a protected statement comes later to a finalizer block of the scope, entered with the completion of the try body just before it, runs the whole cleanup there and resumes that completion |
| FinalizerPaths.JumpOnPath | crates/cfg-pascal/src/pascal_builder.rs:1493-1522 | what a path does behind a Break or Continue: the cleanups between it and its innermost loop, innermost first, and then it goes on as after that loop, or at its head; outside all loops it leaves the routine; a cleanup that ends abruptly takes over |
| FinalizerPaths.RaiseOnPath | crates/cfg-pascal/src/pascal_builder.rs:2078-2166 | what a path does behind a raise of a known class: the cleanups between it and the innermost try..except around it, innermost first; then a throw to a handler there that the declared parents of the class do not rule out and no earlier handler surely forestalls, or past all handlers if none surely catches it, or out of the routine when there is no try..except; a cleanup that ends abruptly takes over |
| FinalizerPaths.LeavesForExit | crates/cfg-pascal/src/pascal_builder.rs:1856-1953 | from any block that holds a protected statement, reachable or not, a path to the exit passes a finalizer block of the scope |
| Executions.MatchAgrees | crates/cfg-pascal/src/pascal_builder.rs:2103-2147 | a handler that catches the runtime class is never ruled out, one that does not is never taken as sure |
| Executions.CatchAgrees | crates/cfg-pascal/src/pascal_builder.rs:2103-2147 | the first handler that really catches the class has an edge, and its body's fact covers the class |
| Executions.EscapeAgrees | crates/cfg-pascal/src/pascal_builder.rs:2103-2147 | when no handler catches the class, the exception stays pending |
| Executions.ExecutionRunSeq | crates/cfg-pascal/src/pascal_builder.rs:1449-1457 | every execution with real exception classes, bare raise included, is one of the structured runs, with the same statements and the same branches |
| RoutineTheorems.ExecutionsHavePaths | crates/cfg-pascal/src/pascal_builder.rs:964-1340 | every execution with real exception classes follows a path of the built graph from entry to exit, visiting the same statements in the same order and taking the same branches, turns, arms and throws as the edge kinds tell |
| RoutineTheorems.EdgeKindsFit | crates/cfg-pascal/src/pascal_builder.rs:1902-2139 | every edge of the graph, reachable or not: into a finalizer made for an exception and into a handler only throws lead, into a finalizer made for another completion only FinallyEntry, and a throw leads nowhere else but to the exit |
| RoutineTheorems.FinalizersRequired | crates/cfg-pascal/src/pascal_builder.rs:1856-1953 | the finalizer blocks of a scope are a required set between any block that holds a statement of the protected body and the exit, as the path queries define it |
| RoutineTheorems.PendingKeys | crates/cfg-pascal/src/pascal_builder.rs:1736-1754 | continuation keys of pending transfers are determined by their outcomes and the open loops |
| PendingTransfers.SameContinuation | crates/cfg-pascal/src/pascal_builder.rs:1736-1754 | two pending transfers share their continuation if and only if they agree in kind, target, target scopes and fact, and in the spelling of the class but for the case of ASCII letters |
| RoutineTheorems.HitAgreesWithWalk | crates/cfg-pascal/src/pascal_builder.rs:1955-2054 | a cache hit and a fresh walk under equal keys complete alike and leave the same continuations pending |
| RoutineTheorems.NoJumpsOutsideSeq | crates/cfg-pascal/src/pascal_builder.rs:1493-1522 | outside all loops no statement completes by Break or Continue |
| PathQueries.MustPassThrough | crates/cfg-core/src/query.rs:41-62 | true exactly when every path to the exit contains the block, `from` or `through` equal to the exit included |
| PathQueries.MustPassThroughAny | crates/cfg-core/src/query.rs:184-189 | true exactly when every path to the exit contains one of the blocks; so it agrees with MustPassThrough on singletons |
| PathQueries.PathAvoiding | crates/cfg-core/src/query.rs:140-181 | a path if and only if there is one that enters no avoided block and leaves `from` by no skipped edge kind; the path returned is such a path and is shortest |
| PathQueries.Reconstruct | crates/cfg-core/src/query.rs:192-205 | following discovering edges back gives the edges of a path of the recorded length, in order |
| PathQueries.NoDetour | crates/cfg-core/src/query.rs:140-181 | an exhausted search proves that there is no path, cycles back to the start included |
| PathQueries.NoShorter | crates/cfg-core/src/query.rs:140-181 | the first arrival is at the shortest distance |
| PathQueries.BlocksBetween | crates/cfg-core/src/query.rs:65-88 | exactly the blocks on some path between the two |
| PathQueries.Forward | crates/cfg-core/src/query.rs:65-88 | exactly the blocks that can be reached |
| PathQueries.Backward | crates/cfg-core/src/query.rs:65-88 | exactly the blocks from which the target can be reached |
| PathQueries.DetourFromPath | crates/cfg-core/src/query.rs:184-189 | a path of blocks that avoids a set is a path of edges that avoids it |
| SummaryComputation.UniqueSolution | crates/cfg-core/src/compute.rs:20-44 | on an acyclic call graph the equations "summary = analysis of the callees' summaries" have one solution |
| SummaryComputation.NoSolution | crates/cfg-core/src/compute.rs:46-70 | on a cyclic call graph there may be none, so rounds need not settle |
| SummaryComputation.CalleeSummaries | crates/cfg-core/src/compute.rs:74-87 | exactly the summaries of the callees that are known so far, unchanged |
| SummaryComputation.CallGraph.ComputeInOrder | crates/cfg-core/src/compute.rs:20-44 | for any topological order, callees first, the result is the solution |
| SummaryComputation.CallGraph.Round | crates/cfg-core/src/compute.rs:46-70 | each procedure in turn gets the summary that the present ones imply; a round that changed nothing leaves every equation true |
| SummaryComputation.CallGraph.ComputeInRounds | crates/cfg-core/src/compute.rs:46-70 | when it stops because a round changed nothing, the equations hold for every procedure; otherwise exactly twenty rounds were made |
| SummaryComputation.CallGraph.Compute | crates/cfg-core/src/compute.rs:20-72 | the acyclic and the cyclic case together |
| SourceMaps.NewSourceMap | crates/cfg-pascal/src/source_map.rs:567-748 | accepts exactly the valid maps: named distinct sources, named expansions, segments that tile the output, true copies and masks, one source per expansion, no original byte claimed twice |
| SourceMaps.NeighboursSuffice | crates/cfg-pascal/src/source_map.rs:728-740 | sorted ranges whose neighbours are disjoint are pairwise disjoint |
| SourceMaps.SortRanges | crates/cfg-pascal/src/source_map.rs:728-730 | the ranges in order, the same ranges |
| SourceMaps.DisjointByGroups | crates/cfg-pascal/src/source_map.rs:684-740 | checking each expansion and source on its own covers all pairs of segments |
| SourceMaps.ValidateMask | crates/cfg-pascal/src/source_map.rs:886-916 | accepts exactly whitespace of the same length with the same line breaks |
| SourceMaps.CheckOrigin | crates/cfg-pascal/src/source_map.rs:634-715 | accepts exactly a segment whose original range exists and whose bytes are copied or masked truly |
| SourceMaps.PartitionPoint | crates/cfg-pascal/src/source_map.rs:803-876 | binary search finds the first segment that ends behind the query start |
| SourceMaps.MapRange | crates/cfg-pascal/src/source_map.rs:803-876 | equals the scan of all segments on every valid map, and refuses exactly the ranges outside the prepared text |
| SourceMaps.QueryTiles | crates/cfg-pascal/src/source_map.rs:803-876 | the pieces cover the query exactly, in order, without gap or overlap |
| SourceMaps.QueryFaithful | crates/cfg-pascal/src/source_map.rs:803-876 | each piece is part of one segment and of its kind: a copied piece names original bytes that equal the prepared bytes, a masked piece the original bytes it blanks, and an added piece names none; expansion and source are those of the segment |
| ConditionExpressions.ExpressionParser.Or | crates/cfg-pascal/src/prepared.rs:2240-2248 | the parsing method moves its position and answers as the grammar function does |
| ConditionExpressions.ExpressionParser.Primary | crates/cfg-pascal/src/prepared.rs:2266-2306 | the same for primaries: constants, Defined with its symbol in parentheses, parenthesised conditions, and their errors |
| ConditionExpressions.ParseTokens | crates/cfg-pascal/src/prepared.rs:2105-2150 | all tokens must be used |
| ConditionExpressions.ParserInvertsPrinter | crates/cfg-pascal/src/prepared.rs:2239-2339 | for every tree, parsing its precedence-aware printing gives its postfix code if and only if it nests within the depth limit, and fails as too deep otherwise |
| ConditionExpressions.EvaluateCode | crates/cfg-pascal/src/prepared.rs:1137-1182 | the loop over the value stack computes the run of the postfix code; for the code of any condition the value is True if and only if the condition surely holds, False if and only if it surely does not, by the rules of NOT, AND and OR over what is known, and Unknown otherwise |
| ConditionExpressions.EvaluationIsMeaning | crates/cfg-pascal/src/prepared.rs:1137-1182 | whatever text the parser accepts is the postfix code of a condition, and its value says of that condition what is surely true or surely false, by the same exact rules |
| ConditionExpressions.CompleteValue | crates/cfg-pascal/src/prepared.rs:1137-1182 | when all symbols are known the value is the two-valued truth of the condition in the set of defined names |
| ConditionExpressions.SurelyHolds | crates/cfg-pascal/src/prepared.rs:1083-1096 | what is surely true holds, and what is surely false fails, for every set of defined names that the known symbols allow; with all symbols known one of the two is the case |
| ConditionExpressions.OrTree | crates/cfg-pascal/src/prepared.rs:2240-2306 | whatever the parser accepts is the postfix code of some tree |
| ConditionExpressions.FallbackNeverUsed | crates/cfg-pascal/src/prepared.rs:1137-1182 | for everything the parser accepts and all symbols: no operator ever meets too short a stack, and exactly one value is left |
| ConditionExpressions.EvaluateBelow | crates/cfg-pascal/src/prepared.rs:1083-1096 | with more symbols known a definite value does not change |
| Directives.Tokenize | crates/cfg-pascal/src/prepared.rs:2152-2228 | the cursor loop reads the tokens that the recursive reading gives, and stops at the same byte when one is not supported |
| Directives.TokensReadBack | crates/cfg-pascal/src/prepared.rs:2152-2228 | tokens written out as text are read back unchanged |
| Directives.ConditionReadBack | crates/cfg-pascal/src/prepared.rs:2105-2228 | from tree to text and back: the text of a condition is read as its postfix code unless it nests too deep |
| Directives.DirectiveReadBack | crates/cfg-pascal/src/prepared.rs:1962-2085 | each directive written with any of its keywords in any case and any blanks around its argument is read as the command it says, with its symbol, condition or path, and charged what it costs |
| Directives.ForeignDirective | crates/cfg-pascal/src/prepared.rs:1962-2085 | a directive with any other keyword is read as none of these |
| Directives.CheckIncludePath | crates/cfg-pascal/src/prepared.rs:2410-2448 | accepts exactly bare paths without blanks or quotes, and between quotes the spelling of any path of one line and at least one byte in which each quote is written twice, closed by one quote at the end |
| DirectiveLexer.LexSource | crates/cfg-pascal/src/prepared.rs:1873-1960 | a split into maximal plain text and closed directives outside strings and comments, or the first unclosed or surplus directive |
| DirectiveLexer.SplitsAgree | crates/cfg-pascal/src/prepared.rs:1873-1960 | a source has only one such split up to a place |
| DirectiveLexer.LexedOnce | crates/cfg-pascal/src/prepared.rs:1873-1960 | the source and the limits determine the split, or the fault when there is none |
| DirectiveLexer.ReadDirective | crates/cfg-pascal/src/prepared.rs:1908-1945 | keyword and argument of the directive that starts here, or nothing when it is not closed |
| PreprocessorLaws.LiveMeansAllChosen | crates/cfg-pascal/src/prepared.rs:1358-1388 | text is copied exactly when all open groups are in their chosen branch |
| PreprocessorLaws.StepSound | crates/cfg-pascal/src/prepared.rs:1323-1642 | every step keeps: the include chain is the frame stack and repeats no source, groups are nested consistently, segments tile the output truly and claim no byte twice, the length equation, and every budget |
| PreprocessorLaws.StartSound | crates/cfg-pascal/src/prepared.rs:1302-1321 | the machine starts in such a state |
| PreparationRuns.StepDecreases | crates/cfg-pascal/src/prepared.rs:1323-1642 | each step lowers the pair of unused occurrences and items left in open frames, so runs end |
| PreparationRuns.RunSound | crates/cfg-pascal/src/prepared.rs:1323-1656 | all of this holds when the run is over |
| PreparationRuns.ChainBounded | crates/cfg-pascal/src/prepared.rs:1563-1619 | includes nest no deeper than there are loaded sources |
| PreparationRuns.SoundIsValid | crates/cfg-pascal/src/prepared.rs:1644-1656 | what the machine has built is a valid source map if and only if all sources have names |
| PreparationRuns.OutputLength | crates/cfg-pascal/src/prepared.rs:2489-2604 | the output is as long as all expanded sources together with the added line breaks |
| PreparationRuns.PartialAgreesWithComplete | crates/cfg-pascal/src/prepared.rs:1083-1096 | a run that succeeds without all symbols gives the same bytes and segments under every choice of the others |
| PreprocessorLaws.SpendAllExact | crates/cfg-pascal/src/prepared.rs:1691-1711 | charges made one after the other go through exactly when their sums are within the limits, and then the sums are what was used |
| PreprocessorLaws.LexedSound | crates/cfg-pascal/src/prepared.rs:1012-1035 | splitting a source on demand loads it, changes only the usage and the list of split sources, and keeps every invariant |
| SourcePreparation.Preparation.CloseFrame | crates/cfg-pascal/src/prepared.rs:1323-1348 | an include that does not end a line gets a line break of its own |
| SourcePreparation.Preparation.OpenFrame | crates/cfg-pascal/src/prepared.rs:1559-1622 | an include opens the bound source unless it is unresolved, too deep, too many or already open |
| SourcePreparation.Preparation.Step | crates/cfg-pascal/src/prepared.rs:1323-1642 | one turn of the loop does what the step function says to all fields, or stops with its fault; whole runs of that function are shown to be the recursive meaning of the project |
| SourcePreparation.Preparation.Run | crates/cfg-pascal/src/prepared.rs:1323-1642 | the loop ends in the state, or with the fault, of the whole run |
| SourcePreparation.PrepareSource | crates/cfg-pascal/src/prepared.rs:1644-1656 | the prepared bytes with a valid map, or the run's fault; the map is refused only when a source has no name |
| SourcePreparation.Catalog | crates/cfg-pascal/src/prepared.rs:963-1004 | succeeds exactly for distinct identities within the byte limit; every text is split |
| SourcePreparation.InitialSymbols | crates/cfg-pascal/src/prepared.rs:1056-1081 | succeeds exactly for proper names without conflict; exactly the named symbols are known |
| SourcePreparation.ValidateBindings | crates/cfg-pascal/src/prepared.rs:1793-1871 | succeeds exactly when every binding joins an include directive of a loaded source to a loaded source, none is doubled, and splitting stays within the work limit; the table holds exactly the bindings |
| ProjectPreparation.AdmittedOnce | crates/cfg-pascal/src/prepared.rs:1280-1321 | an input stands for one project and one set of symbols |
| ProjectPreparation.Admit | crates/cfg-pascal/src/prepared.rs:1280-1321 | succeeds exactly for input in order: the root named and loaded, distinct sources within the byte limit, proper names without conflict, every binding in order and bound once, and splitting the root and the bound sources within the work limit |
| ProjectPreparation.PrepareProject | crates/cfg-pascal/src/prepared.rs:1280-1656 | succeeds if and only if the input is in order, every source has a name and the machine runs through; then it delivers exactly the bytes and segments of the recursive meaning of the project, includes opened in place, with a valid map and within the output limit; for input in order a failure is the fault of that meaning, a budget that it exceeds, an open group, no complete content or a source without a name |
| ProjectPreparation.PreparedAgrees | crates/cfg-pascal/src/prepared.rs:1083-1096 | a preparation that succeeds with symbols left open delivers the same bytes and the same map under all options that settle them |
| ProjectMeaning.RunIsMeaning | crates/cfg-pascal/src/prepared.rs:1323-1642 | for every project, with its includes: the run succeeds if and only if the recursive reading of the root source, each live include replaced by the reading of the source bound to it, has a meaning within the limits; then output, segments, symbols and costs are those of that reading, and otherwise the fault is the reading's own or a budget |
| ProjectMeaning.PrepareIsMeaning | crates/cfg-pascal/src/prepared.rs:1323-1656 | and so is what a preparation delivers or reports |
| IfTrees.NodesAgree | crates/cfg-pascal/src/prepared.rs:1358-1521 | on the items of an IF tree the machine writes what the recursive meaning says, leaves the same symbols and the same open groups, or fails for the same reason or on a budget |
| IfTrees.RunIsMeaning | crates/cfg-pascal/src/prepared.rs:1323-1650 | for one include-free source the whole run equals the recursive meaning of its nested IF tree |
| IfTrees.AcceptedIsTree | crates/cfg-pascal/src/prepared.rs:1323-1650 | every include-free source that is accepted has such a tree, so what is delivered is its meaning |
| BranchHistories.OneLiveBranch | crates/cfg-pascal/src/prepared.rs:1389-1521 | a group has at most one live branch, exactly one when it has an ELSE in live text, none in dead text |
| BranchHistories.EffectMoves | crates/cfg-pascal/src/prepared.rs:1389-1521 | each directive opens a group, moves the innermost one on, closes it, or leaves the groups alone |
| BranchHistories.RunHistory | crates/cfg-pascal/src/prepared.rs:1323-1521 | along every run, from the step that opens a group for as long as it stays open, its states form such a sequence of branches |
| BranchHistories.RunHasOneLiveBranch | crates/cfg-pascal/src/prepared.rs:1323-1521 | so at every point of a run an open group has had at most one live branch, and none inside dead text |
| LayoutDocs.StepShrinks | crates/fmt4d/src/renderer.rs:134-307 | every step of the stack machine leaves less to render |
| LayoutDocs.BytesOf | crates/fmt4d/src/renderer.rs:573-598 | widths are bytes: no less than the number of characters, and the same exactly for ASCII text |
| LayoutRenderer.LineGauge.Inner | crates/fmt4d/src/renderer.rs:658-766 | measuring a document flat, with the space left updated in place |
| LayoutRenderer.LineGauge.Item | crates/fmt4d/src/renderer.rs:835-960 | measuring an entry in its own mode, up to the end of the line |
| LayoutRenderer.LineGauge.Rest | crates/fmt4d/src/renderer.rs:807-825 | the rest of the stack in document order: overflow, line end, or nothing left |
| LayoutRenderer.Renderer.EmitToken | crates/fmt4d/src/renderer.rs:573-598 | indentation at the start of a line, else a space where the spacing table asks for one between this token and the one before, then the text: the pen stands as the pieces written so far, with this word added, say |
| LayoutRenderer.Renderer.GroupFits | crates/fmt4d/src/renderer.rs:773-825 | the flat group and the rest of its line, measured from where the pen stands |
| LayoutRenderer.Renderer.FillPair | crates/fmt4d/src/renderer.rs:232-290 | one separator with its content: forced, preserved or greedy |
| LayoutRenderer.Renderer.Drain | crates/fmt4d/src/renderer.rs:134-307 | the loop drains the stack as the recursive drain does |
| LayoutRenderer.Render | crates/fmt4d/src/renderer.rs:119-128 | the text of a document is the text of its layout: its pieces in document order, each line break, space, indentation and flat or broken group as the measure of the line so far decides |
| LayoutMeaning.RenderedIsLaidOut | crates/fmt4d/src/renderer.rs:119-307 | what the stack machine writes is the text of the recursive layout of the document |
| LayoutMeaning.PieceStands | crates/fmt4d/src/renderer.rs:573-598 | every piece stands in the text right behind the text of the pieces before it and what leads to it |
| LayoutMeaning.WordsSpaced | crates/fmt4d/src/renderer.rs:573-598 | between two words of a line is one space if the spacing table asks for it, and nothing otherwise |
| LayoutMeaning.WordIndented | crates/fmt4d/src/renderer.rs:573-598 | a word that starts a line is led by its level of indentation in tabs, or in that many times the indent size of spaces |
| LayoutMeaning.GroupDecided | crates/fmt4d/src/renderer.rs:773-825 | the pen of the machine decides a group as the measure of the pieces before it does |
| LayoutMeaning.PairDecided | crates/fmt4d/src/renderer.rs:232-290 | and so for a separator of a fill with its content |
| LayoutLaws.BetterRest | crates/fmt4d/src/renderer.rs:835-960 | with more room or no token before, the rest of the line is judged no worse |
| LayoutLaws.InnerIsItem | crates/fmt4d/src/renderer.rs:658-960 | inside a group without forced breaks both ways of measuring agree |
| LayoutLaws.WritesAsMeasured | crates/fmt4d/src/renderer.rs:134-205 | what is written mid-line is no wider than what was measured for it |
| LayoutLaws.UnfoldsAsMeasured | crates/fmt4d/src/renderer.rs:207-290 | on a line that fits, unfolding an entry leaves a line that fits |
| LayoutLaws.GroupChosen | crates/fmt4d/src/renderer.rs:211-224 | on a line that fits, every further group is chosen flat when it is decided with no less room |
| LayoutTheorems.SeparatorFlat | crates/fmt4d/src/renderer.rs:232-290 | inside a flat group every separator of a fill is flat |
| LineStarts.UnfoldsAsStarted | crates/fmt4d/src/renderer.rs:207-290 | at the start of a line, unfolding an entry keeps the start of the line safe |
| LineStarts.WriteStep | crates/fmt4d/src/renderer.rs:134-205 | writing an entry, mid-line or first on a safe line, stays on the line and leaves a line that fits |
| LayoutTheorems.ChosenFlatIsFlat | crates/fmt4d/src/renderer.rs:181-292 | a group chosen flat, mid-line or at a safe line start, is written exactly as its flat form, with no line break, within the limit |
| LayoutTheorems.ChosenFlatKeepsWithin | crates/fmt4d/src/renderer.rs:773-825 | and its line stays within `max_line_length` up to the next newline |
| LayoutTheorems.FlatGroupsKeepWithin | crates/fmt4d/src/renderer.rs:119-307 | both, wherever rendering a whole document comes to a group and chooses it flat, mid-line or at a safe line start; widths in characters of the physical line |
| LineStartLimits.TokenStartExact | crates/fmt4d/src/renderer.rs:773-800 | a line that starts with a token of the group keeps to this whatever follows, if and only if the token is indented no further than the measure allows |
| LineStartLimits.NextTokenExact | crates/fmt4d/src/renderer.rs:773-825 | the same when the group writes nothing and the first token comes from behind it |
| LineStartLimits.RawStartExact | crates/fmt4d/src/renderer.rs:784-795 | a line that starts with raw text keeps to this whatever follows, if and only if no space can be needed behind the stale last token, or the text ends blank, or there is room to spare |
| LineStartLimits.ChoiceStartExact | crates/fmt4d/src/renderer.rs:207-224 | a line that starts with a further group stays flat if and only if that group is decided with no less room |
| LineStartLimits.FillStartExact | crates/fmt4d/src/renderer.rs:232-290 | the same for a fill |
| LineStartLimits.LineStartExact | crates/fmt4d/src/renderer.rs:164-180 | a verbatim line start on an empty line ends nothing, though it is measured as the end; for every indentation and every rest, the line is kept if and only if the indentation leaves room for the first line of what the rest writes behind it |
| LineStartLimits.LineStartMeasured | crates/fmt4d/src/renderer.rs:164-180 | which holds wherever the measure of the code, taken behind the indentation, says that the rest fits |
| LineStartLimits.LineStartOverflows | crates/fmt4d/src/renderer.rs:164-180 | and for no indentation does it hold whatever follows |

## Left out

- Goto, labels and preprocessor branches inside the control-flow builder, and the cached-body rule that depends on goto: label namespaces would double the state without changing the argument.
- The edge kinds `Normal` and `FinallyExit`: not told apart by the theorems, both say only that control goes on, and nothing in the repository reads the difference. Every other kind that the builder sets is part of what a path leaves behind.
- Rebuilding a transfer from its continuation key after a finally body: that branch needs a group without inputs, and groups always have one.
- Parsing: statements and documents are datatypes; tree-sitter nodes, node kinds and the search for raise, exit and break calls are not modelled.
- Name resolution of exception classes, imports and method owners: reduced to the parent map of the type index.
- Dominators, reachability by the graph library, and its topological sort: a topological order is given to `Compute`.
- Statement byte ranges and the lookup of blocks by statement.
- Machine integers: counters, columns and offsets are unbounded, so checked and saturating additions never reach their limit.
- Error messages, error positions and the text form of expansion identities; an expansion is the list of include occurrences that led to it, or the empty name.
- Reading a source lazily: sources are split when catalogued, and the cost is charged and a failure reported when the source is first needed, as in the code.
- `PreparedSource` metadata (prepared source id, configuration id, fidelity, provenance) and the identity map.
- Alignment groups and rows, outlier detection and protected spans of the formatter.
- The spacing table of the formatter: any table is allowed in which nothing needs a space when no token is before it.
- SourcePreparation.CheckBinding: a binding to an include directive whose path is malformed is refused with the same fault as one to another directive.
- ProjectPreparation.PrepareProject: says exactly when it succeeds, what it delivers and which fault of a run it reports; for input that is not in order it does not say which of several faults is reported.
- LayoutTheorems.FlatGroupsKeepWithin: for documents of single-line texts whose fills alternate separators and contents and whose groups hold no forced line break.
- Building documents from syntax, comments, blank lines, directive maps and the command line.
