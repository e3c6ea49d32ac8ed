# hale: the optimizer, the executor and the static analyses

Hale is a small language for orchestrating HTTP requests.  Its compiler turns a flow into a list of
nodes, works out which nodes depend on which, rewrites the list so that fewer requests are sent, drops
what nothing needs and levels the rest into waves; its run-time system walks the waves and sends the
requests of each at the same time.  Beside this, the compiler promises facts about every run: how many
requests, in how many rounds, to which endpoints, within which latency, which of them repeat in a loop.

This project models that pipeline, from lowering to execution, and proves that the rewrites and the
schedule do not change what a program does and that the promises are kept.  Where a promise fails, the
failing programs are given together with the exact condition under which it holds.

How it is built:

- `Exec` is the one operational semantics.  In `InOrder` mode it runs statements one by one as they were
  written, which is the reference; in `Waves` mode it walks the schedule, sending the fetches of a wave
  from one snapshot in any order of arrival.  Its network is a `World`: the answer to a GET is a function
  of the request, the answer to anything else also of the requests before it that were not GETs.
- `Observe` is what an outsider sees of a run: the printed lines and every request that is not a GET.
  `Sends`, `Rounds` and `Elapsed` meter a run.
- A pass that overwrites a list, and the walks that keep a stack or a table, are methods, mostly of classes
  (`Optimizer`, `Executor`, `Lowerer`, `BatchRules`, `CostAnalyzer`, `Detector`, `ExprParser`, `Literals`,
  `Labels`),
  each proved to leave exactly what a function says; the theorems are about those functions.
- `Sound` collects what a node list must satisfy for the claims about rewriting and scheduling: recorded
  reads and edges, every name bound once and before it is read, names that leak out of nested bodies read
  and bound by nobody else, and no printing from nodes that are not effects.  `Ready` adds a schedule, no
  retry arms, and loops whose iterations read nothing an earlier one wrote.
- What a definition says is also told without it: which requests are joined, dropped or moved (`FusionChoice`,
  `DedupChoice`, `HoistingChoice`), what calls, matches, loops and fetches leave (`Returns`, `Requests`), what the
  cost report counts (`CostChoices`), what the detector meets and reports (`Detections`, `Provenance`), what the
  grammar and the operators mean (`Grammar`, `Operators`).
- A contract or a definition that begins with `hide` keeps the named definitions, or with `*` all of them, away
  from the check that it is well-formed.  It says the same with and without; the check is much faster.

## Model

| member | source | states |
|---|---|---|
| Refinement.WavesRefineProgramOrder | crates/hale-runtime/src/exec.rs:21-137 | Walking the waves, with the fetches of a wave in any order of arrival, ends as running the statements one by one does, prints the same lines, sends the same mutations in the same order and leaves the same values in live bindings, for every body that is ready and every pair of runs in which no node fails that is not itself an effect; nested bodies, called flows, early returns and failing effects included |
| Refinement.WavesIntroduceNoFailure | crates/hale-runtime/src/exec.rs:21-137 | When bodies return, if at all, in their last statement, what succeeds in program order succeeds in waves with the same outcome and the same observations; nothing is asked of the wave run |
| Rounds.RoundTracks | crates/hale-runtime/src/exec.rs:29-57 | One round of concurrent fetches, in any order of arrival, keeps the wave run in step with the reference run |
| Rounds.ArrivalUnnoticed | crates/hale-runtime/src/exec.rs:31-45 | A fetch of a ready round gives the same result however many of the others arrived before it |
| Executor.Executor.RunBody | crates/hale-runtime/src/exec.rs:21-137 | Overwriting one environment wave by wave leaves the environment, the trace and the outcome of the wave run |
| Executor.Executor.RunRound | crates/hale-runtime/src/exec.rs:29-57 | Launching from a snapshot and awaiting in program order leaves the state of one round; an awaited failure ends the run |
| Executor.Executor.RunLoop | crates/hale-runtime/src/exec.rs:95-114 | Iterations share the scope of the loop; the state after them is that of the loop, and a return that the body declares ends it |
| Executor.Executor.RunMatch | crates/hale-runtime/src/exec.rs:180-215 | The chosen arm, up to five attempts through a retry arm, and the scrutinee when attempts run out |
| Executor.Executor.RunExpr | crates/hale-runtime/src/exec.rs:141-178 | A call to a declared flow runs it in a scope of its own and leaves the caller's bindings alone |
| Returns.CallGives | crates/hale-runtime/src/exec.rs:141-178 | A call runs the flow where its parameters hold the arguments and nothing else is known; it ends in what the flow returned or, failing that, its last value or null, which stands in the binding, and a failure passes through; in either order of execution |
| Returns.ReturningFlow | crates/hale-runtime/src/exec.rs:77-83 | Calling `flow f(x) { return e }` binds the value that `e` has where `x` alone is known |
| Returns.MatchGives | crates/hale-runtime/src/exec.rs:180-206 | A match runs the first arm that applies with its captures bound; what a block arm returns, or its last value, or null, is the value of the match and stands in the binding, and what the block bound stays bound |
| Returns.MatchEvaluates | crates/hale-runtime/src/exec.rs:180-206 | An expression arm gives its value; a value that no arm applies to is an error |
| Returns.RetriesFiveTimes | crates/hale-runtime/src/exec.rs:187-215 | A retry arm over a fetch that keeps failing asks exactly five times more and leaves the error |
| Returns.LoopGives | crates/hale-runtime/src/exec.rs:98-116 | A loop runs its body once for each element, each time from where the last left off, until a run fails or, where the body holds a return, leaves a value, which the loop returns |
| Returns.SimpleNodes | crates/hale-runtime/src/exec.rs:60-83 | Let binds, log prints and assert tests the value of the expression; return ends the body with it or with null |
| Returns.ScatterPicks | crates/hale-runtime/src/exec.rs:118-131 | A scatter binds the first element of its batch with the wanted key, or null |
| Requests.RequestSpelled | crates/hale-runtime/src/exec.rs:264-326 | A request carries its method, its endpoint, its segments after slashes, its parameters and the comma-joined ids of its batch, its body and its idempotency key |
| Requests.OutcomeBinds | crates/hale-runtime/src/exec.rs:364-396 | A failure, or a success that breaks the declared type, is an error, and a value only where a `Result` is declared; a success goes through the pipeline |
| Requests.FetchStatement | crates/hale-runtime/src/exec.rs:364-396 | Run as lowered, a `Result`-bound fetch whose request fails binds that error and the body goes on; without `Result` it fails there; an answer of the declared type is bound, wrapped where a `Result` is declared |
| Schedule.LivenessIsLeast | crates/hale-compiler/src/optimize.rs:665-701 | The live nodes are the least set that holds every effect and everything its members depend on |
| Schedule.LevelIsLongestChain | crates/hale-compiler/src/optimize.rs:705-731 | The wave of a live node is the length of the longest live dependency chain below it: no chain is longer and one is as long |
| Schedule.WavesExact | crates/hale-compiler/src/optimize.rs:705-731 | Every live node stands in exactly its own wave, once and in written order, nothing else does, and no wave is empty |
| Schedule.WavesOptimal | crates/hale-compiler/src/optimize.rs:705-731 | No schedule that respects the dependencies takes fewer steps than there are waves |
| Schedule.EffectsInOrder | crates/hale-compiler/src/optimize.rs:705-731 | Two effects stand in different waves, in their written order |
| Schedule.OptimizedIsScheduled | crates/hale-compiler/src/optimize.rs:665-731 | Marked and levelled nodes form a schedule in which every dependency stands in an earlier wave |
| Dependencies.DepsMeaning | crates/hale-compiler/src/lower.rs:460-484 | A node depends on `d` exactly when `d` is the latest earlier writer of a name it reads, or it is an effect and `d` the latest earlier effect |
| Dependencies.ComputeDeps | crates/hale-compiler/src/lower.rs:460-484 | The pass over the array with its table of last writers leaves exactly those edges |
| Dependencies.WithDepsFixed | crates/hale-compiler/src/optimize.rs:389-413 | Wiring a wired list again changes nothing, so edges can be recomputed after every rewrite |
| Pipeline.ScheduleMeansTheSame | crates/hale-compiler/src/optimize.rs:665-731 | Liveness and scheduling together, from any sound node list: same outcome, same observations, same live bindings as the list in written order; dropping dead requests changes nothing else |
| Compile.CompiledMeansTheSame | crates/hale-compiler/src/optimize.rs:48-68 | The same with every nested body marked and scheduled too, at every depth |
| OptimizerPipeline.RewritesPreserve | crates/hale-compiler/src/optimize.rs:48-68 | Loop fusion, deduplication and static fusion in the compiler's order keep soundness at every level, the outcome, the observations and every binding but those of the batches, and send no more requests than before besides the hoisted batches |
| OptimizerPipeline.OptimizerMeansTheSame | crates/hale-compiler/src/optimize.rs:48-68 | The whole optimizer: rewritten, marked, scheduled at every level and run in waves, a body behaves as its statements were written |
| LateReturns.CompiledIntroducesNoFailure | crates/hale-compiler/src/optimize.rs:48-68 | When bodies return, if at all, in their last statement, a body that succeeds as written succeeds marked and scheduled at every level, with the same outcome and observations; nothing is asked of the wave run |
| LateReturns.OptimizerIntroducesNoFailure | crates/hale-compiler/src/optimize.rs:48-68 | The same for the whole optimizer: the rewrites keep returns last, so what succeeds as written succeeds rewritten, scheduled and run in waves |
| Optimizer.Optimizer.Optimize | crates/hale-compiler/src/optimize.rs:48-68 | All passes over one body in place leave the composition of their specifications |
| Optimizer.Optimizer.Liveness | crates/hale-compiler/src/optimize.rs:665-701 | The worklist ends with exactly the live nodes marked |
| Optimizer.Optimizer.ScheduleWaves | crates/hale-compiler/src/optimize.rs:705-731 | One forward pass over an array of levels fills exactly the specified waves |
| Dedup.DedupPreserves | crates/hale-compiler/src/optimize.rs:73-124 | Deduplication leaves the outcome, the observations and every binding as they were, never sends more, and sends one request fewer for every node it rewrites when the run completes |
| Dedup.SameSigSameFetch | crates/hale-compiler/src/optimize.rs:128-158 | Equal signatures, and equal parts that the signature leaves out, mean the same request and the same bound value in every environment |
| Dedup.InputsKeepTheirWriters | crates/hale-compiler/src/optimize.rs:128-158 | With equal dependency sets, nothing between the two fetches binds a name they read, even where inputs are rebound elsewhere |
| Dedup.DuplicateSendsSameRequest | crates/hale-compiler/src/optimize.rs:73-124 | In program order the duplicate would send the very request of the first fetch and bind the very value |
| Dedup.FirstBindingKept | crates/hale-compiler/src/optimize.rs:106-123 | The first binding still holds its value when the alias reads it |
| Dedup.SignaturesUnique | crates/hale-compiler/src/optimize.rs:73-124 | Afterwards no two bound eligible fetches share a signature |
| Dedup.GroupingIsLost | crates/hale-compiler/src/optimize.rs:128-158 | Two fetches for which the signature is one text and the requests differ: the printer drops parentheses on right operands of equal precedence |
| Dedup.ResultWrappingIsIgnored | crates/hale-compiler/src/optimize.rs:128-158 | The signature ignores `Result` annotations: reusing the value is right if and only if both fetches asked alike |
| DedupPipeline.DedupIsSound | crates/hale-compiler/src/optimize.rs:73-124 | Deduplicated nodes are sound again |
| DedupPipeline.DedupedScheduleMeansTheSame | crates/hale-compiler/src/optimize.rs:48-124 | Deduplicated, scheduled and run in waves, a body behaves as written; in program order it sends no more requests |
| Optimizer.Optimizer.DedupRequests | crates/hale-compiler/src/optimize.rs:73-124 | The scan with its table of signatures leaves the specified list |
| DedupChoice.DropsExactly | crates/hale-compiler/src/optimize.rs:73-158 | A bound GET is dropped exactly when an earlier one has the same endpoint, path, parameters and pipeline as text and the same inputs from the same nodes; its node then hands on what the first of them bound, and every other node stays |
| Fusion.FusedWellFormed | crates/hale-compiler/src/optimize.rs:228-272 | After static fusion ids are positions, edges are the recomputed ones and point backward |
| FusionMeaning.BatchedFetch | crates/hale-runtime/src/exec.rs:288-317 | Under the batch promise one request for all ids binds an array that holds, for every id, what the single request would have bound |
| FusionRun.FusionPreserves | crates/hale-compiler/src/optimize.rs:166-272 | Under the batch promise fusing leaves outcome, observations and every original binding as they were, and saves one request for every member reached but the first of its group, however and wherever the run ends |
| FusionSound.FusionIsSound | crates/hale-compiler/src/optimize.rs:285-413 | Fused nodes, batches and scatters included, are sound again |
| FusionPipeline.FusedScheduleMeansTheSame | crates/hale-compiler/src/optimize.rs:48-68 | Fused, scheduled and run in waves, a body behaves as written |
| Optimizer.Optimizer.GroupCandidates | crates/hale-compiler/src/optimize.rs:169-182 | Candidates are grouped under their keys in order of first appearance, each with all of its members |
| Optimizer.Optimizer.FuseRequests | crates/hale-compiler/src/optimize.rs:166-272 | Grouping, planning and rebuilding leave the specified list |
| FusionChoice.JoinedExactly | crates/hale-compiler/src/optimize.rs:166-310 | A GET is joined with others exactly when it is bound, batched and plain, another has the same endpoint and the same path up to the last segment, and no varying segment of theirs reads a name bound from the first of them on |
| FusionChoice.FusesExactly | crates/hale-compiler/src/optimize.rs:166-387 | Nodes keep their order; joined GETs become scatters of one batch, which asks for all their ids just before the first; everything else stays, and nothing else is added |
| LoopFusion.LoopsWellFormed | crates/hale-compiler/src/optimize.rs:423-507 | After loop fusion ids are positions, edges are recomputed and point backward |
| LoopFusionRun.MappedFetch | crates/hale-runtime/src/exec.rs:288-317 | A mapped batch binds an array that supplies every element with what its own request would have bound, and sends one request, or none exactly when there is no element |
| LoopFusionPass.LoopFusionPreserves | crates/hale-compiler/src/optimize.rs:423-507 | Under the batch promise hoisting leaves outcome, observations and bindings as they were; the requests no longer sent are at most one for each element and exactly that many when the loops run to their end, against one batch for each hoisted fetch of a loop that is reached and not empty |
| LoopFusionSound.HoistedIsSound | crates/hale-compiler/src/optimize.rs:530-661 | The rewritten loop body, with its scatters, is sound |
| LoopFusionSound.LoopFusionIsSound | crates/hale-compiler/src/optimize.rs:423-507 | The rewritten enclosing body, with its batches, is sound |
| OptimizerPipeline.LoopFusedScheduleMeansTheSame | crates/hale-compiler/src/optimize.rs:48-68 | Hoisted, scheduled at every level and run in waves, a body behaves as written |
| Optimizer.Optimizer.FuseLoops | crates/hale-compiler/src/optimize.rs:423-507 | The pass with its running counter for batch names leaves the specified list and counter |
| HoistingChoice.HoistableExactly | crates/hale-compiler/src/optimize.rs:530-597 | A fetch in a loop is hoisted exactly when its last segment reads the loop variable and neither it nor the segments before it read anything else the loop binds |
| HoistingChoice.HoistsExactly | crates/hale-compiler/src/optimize.rs:423-663 | Nodes keep their order, in loops too; hoisted fetches become scatters of a batch that asks once for every element and stands before the loop; everything else stays, and nothing else is added |
| FetchFrames.FetchFrame | crates/hale-runtime/src/exec.rs:261-404 | A fetch sends the same request and binds the same value in environments that agree on the variables of its path, parameters, ids, body, key and pipeline |
| FetchFrames.NodeWithin | crates/hale-runtime/src/exec.rs:59-133 | Running a node, nested bodies and retries included, overwrites at most its binding and the names it leaks |
| Frames.EvalFrame | crates/hale-runtime/src/eval.rs:18-102 | Value, printed lines and failure of an evaluation depend only on the variables that are really looked up |
| Frames.LambdaFrame | crates/hale-runtime/src/eval.rs:271-281 | The same through the application of a lambda or of an implicit predicate |
| Frames.PipelineFrame | crates/hale-runtime/src/eval.rs:284-388 | The same through a response pipeline |
| Frames.BlockFrame | crates/hale-runtime/src/eval.rs:450-504 | The same through synchronous blocks, whose statements may bind and shadow |
| Frames.MatchCaptures | crates/hale-runtime/src/eval.rs:400-446 | A pattern that matches binds exactly the names that it captures: those of the first argument of a constructor only |
| Frames.FreeVarsSuffice | crates/hale-compiler/src/lower.rs:519-640 | Environments that agree on the compiler's free variables give the same evaluation, for every expression all of whose really used variables are among them |
| Frames.DollarNameEscapes | crates/hale-compiler/src/lower.rs:524-530 | They do not suffice for `$NAME`, which is looked up in the environment first |
| Frames.SecondArgumentEscapes | crates/hale-compiler/src/lower.rs:586-588 | They do not suffice for a second constructor argument, which counts as bound although it is never captured |
| Elements.ElementIgnored | crates/hale-runtime/src/eval.rs:18-102 | An expression without `.field` does not see the implicit element |
| Operators.Comparisons | crates/hale-runtime/src/eval.rs:104-165 | Numbers and durations compare by size and texts by their first difference; equality is of values; anything else compared is an error |
| Operators.Sums | crates/hale-runtime/src/eval.rs:132-148 | Integers wrap around at 64 bits; a text is joined with the text of whatever is added to it |
| Operators.Connectives | crates/hale-runtime/src/eval.rs:104-130 | `and` and `or` look at their right side only when the left does not decide, with null, false, zero, the empty and errors for false |
| Operators.FilterAndMap | crates/hale-runtime/src/eval.rs:287-302 | `filter` keeps, in order, exactly the elements its test accepts; `map` gives what it computes for each |
| Operators.Slices | crates/hale-runtime/src/eval.rs:320-335 | `limit` and `skip` part the elements at the count, `reverse` turns them round, `count` counts them |
| Operators.UniqueAndSum | crates/hale-runtime/src/eval.rs:346-384 | `unique` keeps exactly the first element of every key; `sum` adds integers and takes nothing else |
| Operators.Flattens | crates/hale-runtime/src/eval.rs:336-345 | `flatten` replaces every array by its elements, one level deep |
| Lowering.BodyFaithful | crates/hale-compiler/src/lower.rs:241-456 | Every node of a lowered body, at every depth, records exactly its free variables and the edges they give |
| Lowering.LoweredIsRecorded | crates/hale-compiler/src/lower.rs:424-484 | A lowered body meets what the optimizer takes for granted about reads if and only if no node uses a name of the body that its free variables leave out |
| Lowering.ParallelOnlyGroups | crates/hale-compiler/src/lower.rs:253-399 | `parallel` blocks change nothing: a body lowers as it does without them |
| Lowering.LoweredInOrder | crates/hale-compiler/src/lower.rs:253-399 | One node for every statement outside its groups, in order: a fetch with the fields of the statement, wrapped exactly when `Result<...>` is declared; a loop that may return exactly when it holds a return; arms, values, bindings and effects as written |
| Lowering.BodyReturns | crates/hale-compiler/src/lower.rs:663-673 | A lowered body can return exactly when its statements hold a `return`, directly or in a nested block, loop or arm |
| Lowering.AnnotatedExactly | crates/hale-compiler/src/lower.rs:119-142 | At every depth, the GETs of ruled endpoints get the parameter and key of their rule, and nothing else changes |
| Lowerer.Lowered | crates/hale-compiler/src/lower.rs:241-456 | Appending to one list and wiring it in place yields the specified body |
| CostBounds.RequestsBounded | crates/hale-compiler/src/cost.rs:85-172 | No run of a covered body sends more requests than reported, through nested matches, loops and calls, for all answers, choices and early returns |
| CostBounds.HopsAndLatencyBounded | crates/hale-compiler/src/cost.rs:64-158 | Nor takes more sequential rounds, or, when every hop on the path declares its latency and no request is later than declared, more request time |
| CostBounds.AcyclicIsCovered | crates/hale-compiler/src/cost.rs:85-172 | Programs without recursion and without retry arms are covered |
| CostLimits.RecursionIsNotCounted | crates/hale-compiler/src/cost.rs:235-251 | A recursive flow is reported as two requests and not flagged; a run sends one more than its depth of recursion, so the report is a bound if and only if it recurses at most once |
| CostLimits.RetryThenBlock | crates/hale-compiler/src/cost.rs:160-172 | Four retries and then a block of `k` requests: the maximum over the arms is a bound if and only if `k <= 1` |
| CostLimits.MixedWaveTakesBoth | crates/hale-compiler/src/cost.rs:127-158 | A wave that holds a fetch and a call takes the rounds of both; the reported depth is a bound if and only if the called flow issues no request |
| CostLimits.MixedIsOptimized | crates/hale-compiler/src/optimize.rs:665-731 | The body of that counterexample is what the compiler makes of its three statements |
| CostAnalyzer.Analyze | crates/hale-compiler/src/cost.rs:81-251 | The walk with its stack of flows, popped after every call, and its growing set of effects computes the specified cost and effects |
| CostChoices.ReportIsAttained | crates/hale-compiler/src/cost.rs:53-172 | For every body, loops, retries and recursion included: requests, width, round trips and latency are each attained by a choice of one arm for each match and one member for each wave, and no choice gives more; the report is unbounded exactly when a loop can repeat a request |
| Budgets.CheckOne | crates/hale-compiler/src/cost.rs:278-382 | A budget draws no complaint if and only if the cost meets it, and every complaint names a bound that is really exceeded or unknown |
| Budgets.BudgetIsKept | crates/hale-compiler/src/cost.rs:258-276 | A budget that draws no complaint is kept by every run: requests, width, rounds and request time |
| Capabilities.WalkIsReachable | crates/hale-compiler/src/cost.rs:189-223 | The walk visits exactly the bodies that a run can reach, recursive flows included: the least set closed under nesting and calls |
| Capabilities.EffectsExact | crates/hale-compiler/src/cost.rs:183-223 | An effect signature says exactly what live fetches of the visited bodies do, neither more nor less |
| FanOut.CapabilitiesHold | crates/hale-compiler/src/cost.rs:85-223 | Every request of every run, at any depth of recursion and through retries, goes to an endpoint of the signature, is a GET or a HEAD unless mutation is declared, and is one of at most `max_parallel` in flight |
| FanOut.WidthCovered | crates/hale-compiler/src/cost.rs:85-158 | No visited body has a wave wider than reported, although the walk is cut at flows on the stack |
| OptimizedBodies.OptimizedIsLaidOut | crates/hale-compiler/src/optimize.rs:705-731 | The computed schedule holds only live nodes, each in one place, as the cost bounds ask |
| OptimizedBodies.OneEffectPerWave | crates/hale-compiler/src/optimize.rs:705-731 | Beside a call, a match or a loop only fetches can stand in a wave |
| OptimizedBodies.OptimizedRetries | crates/hale-runtime/src/exec.rs:237-257 | In an optimized single-assignment body the fetch that a retry runs again is live |
| LoopInvariance.InvariantFetchRepeats | crates/hale-compiler/src/nplus1.rs:88-206 | A fetch that is found not to depend on a loop sends the identical request every time it is executed, in every iteration of all loops around it |
| LoopInvariance.ReportedInvariantRepeats | crates/hale-compiler/src/nplus1.rs:177-206 | So does every fetch that is reported as loop-invariant |
| LoopInvarianceLimits.MutationResultVaries | crates/hale-compiler/src/nplus1.rs:305-316 | Binding the result of a mutation in a loop counts as invariant: the request of a later fetch repeats if and only if the bound result is that of a GET |
| Detector.Detector.Walk | crates/hale-compiler/src/nplus1.rs:88-124 | The walk with provenance sets updated in place reports what the specification says, and leaves the provenance it says |
| Detections.SitesExactly | crates/hale-compiler/src/nplus1.rs:88-175 | The detector meets exactly the fetches of a program, at any depth, each where it stands and within the loops that enclose it |
| Detections.ReportsExactly | crates/hale-compiler/src/nplus1.rs:177-303 | A fetch in a loop is reported as one request per element exactly when it varies with the loop and is not a plain batched GET of the loop variable, and as repeated exactly when it does not vary and is a read; with the innermost loop and the nesting |
| Provenance.ProvenanceExactly | crates/hale-compiler/src/nplus1.rs:94-124 | A name counts as fetched, or as varying with a loop, exactly when it was last bound by a fetch, or from something that is so |
| Provenance.LoopProvenance | crates/hale-compiler/src/nplus1.rs:126-154 | A loop variable always varies, and is fetched exactly when its collection is |
| Detector.Detector.VisitFor | crates/hale-compiler/src/nplus1.rs:126-154 | A loop body is walked with a copy: nothing bound in it changes the provenance outside |
| Detector.Detector.VisitFetch | crates/hale-compiler/src/nplus1.rs:177-206 | What one fetch adds to the diagnostics and to the provenance |
| BatchRules.RulesExactly | crates/hale-compiler/src/lower.rs:72-115 | Lowering has a batch rule for an endpoint if and only if some endpoint of that name has a `batch` setting with both a readable query parameter and a readable key |
| BatchRules.BatchedExactly | crates/hale-compiler/src/nplus1.rs:373-383 | The warnings take an endpoint for batched if and only if some endpoint of that name has a `batch` setting, whatever is in it |
| BatchRules.RulesAreBatched | crates/hale-compiler/src/nplus1.rs:373-383 | What lowering batches the warnings take for batched; the converse fails |
| BatchRules.EndpointBatchRules | crates/hale-compiler/src/lower.rs:72-97 | One pass over the endpoints, and over the values of their first `batch` setting, fills exactly the specified table |
| BatchRules.EndpointsWithBatch | crates/hale-compiler/src/nplus1.rs:373-383 | One pass over the endpoints collects exactly the specified names |
| SilentWarnings.SilentIsFusedExactly | crates/hale-compiler/src/nplus1.rs:183-241 | A fetch that draws no warning because it is to be batched is batched if and only if it stands directly in its loop, also within `parallel` blocks but not in a `match` arm, and its endpoint has a complete rule |
| SilentWarnings.DirectNeedsARule | crates/hale-compiler/src/nplus1.rs:183-241 | A fetch for every element, directly in its loop, draws no warning as soon as its endpoint has a `batch` setting, and is batched if and only if the setting is complete |
| SilentWarnings.KeylessIsNotBatched | crates/hale-compiler/src/lower.rs:72-97 | An endpoint with a query parameter and no key: one request for every element, no warning, nothing batched |
| SilentWarnings.SilentInAnArm | crates/hale-compiler/src/nplus1.rs:183-241 | A fetch in a `match` arm within a loop: one request for every element, no warning, nothing batched, whatever the rules |
| Printer.PrintThenParse | crates/hale-syntax/src/pretty.rs:291-371 | Parsing the printed form of a plain expression consumes all of it and returns the same tree |
| Printer.PrintInjective | crates/hale-syntax/src/pretty.rs:291-371 | Plain expressions with the same printed form are equal |
| RoundTrip.RoundTripExactly | crates/hale-syntax/src/parser.rs:904-1165 | An expression whose parts are all spelled out in tokens survives printing and parsing if and only if it is plain: the parser needs more parentheses than the printer writes for every other tree |
| RoundTrip.WholeTook | crates/hale-syntax/src/parser.rs:904-1165 | What the parser returns is an expression that can be written, and it has consumed at least the parentheses that expression needs |
| Grammar.ParserFollowsGrammar | crates/hale-syntax/src/parser.rs:904-1165 | Whatever the parser reads of any tokens is a sentence of the grammar, `or < and < comparison < sum < product < unary < postfix` with its operators named, and means what the grammar says |
| Grammar.TwoOperators | crates/hale-syntax/src/parser.rs:908-968 | Of two operators in a row the one of the tighter layer takes the operand between them, and of equals the first |
| ExprParser.Parser.ParseLevel | crates/hale-syntax/src/parser.rs:904-970 | The cursor over the tokens ends where the specification of that precedence level stops, with the same tree |
| ExprParser.Parser.ParseUnaryExpr | crates/hale-syntax/src/parser.rs:972-993 | The same for unary operators |
| ExprParser.Parser.ParsePrimaryExpr | crates/hale-syntax/src/parser.rs:1033-1165 | The same for atoms, groups, lambdas, records and arrays |
| Literals.LiteralRoundTrip | crates/hale-syntax/src/pretty.rs:413-439 | A printed string literal is delimited by its own closing quote and splits back into the same parts if and only if those are normalized |
| Literals.Lexer.LexString | crates/hale-syntax/src/lexer.rs:180-213 | The lexer stops just past the first quote that is not escaped, and counts an error exactly when there is none |
| Literals.ParseStrParts | crates/hale-syntax/src/parser.rs:1267-1347 | The index-based splitting computes the specified parts and the specified number of errors |
| Labels.WorstIsExact | crates/hale-compiler/src/check.rs:594-627 | On any table of records, cyclic ones included, the search returns the worst label reachable through fields, arrays and optionals, and a path that leads to a type of that label |
| Labels.LabelExactly | crates/hale-compiler/src/types.rs:78-84 | A type is secret exactly when fields lead to a `Secret`, and personal exactly when they lead to a `PII` and to no `Secret` |
| Labels.FoundIsReal | crates/hale-compiler/src/check.rs:594-627 | Whatever is already visited, a label that is found is at the end of the path that is returned |
| Labels.Search.WorstLabel | crates/hale-compiler/src/check.rs:594-627 | The search with its visited set, restored on return, computes that finding |
| Exhaustiveness.CheckIsExact | crates/hale-compiler/src/check.rs:773-836 | For arms of the checked shapes, nothing is reported if and only if every value of the `Result` is matched by some arm at run time |
| Exhaustiveness.ReportSays | crates/hale-compiler/src/check.rs:773-820 | The report reads `Ok(...)` when no arm takes a success, then `Err(v)` for each declared variant that no arm names, in order, or `Err(e)` for an open domain; nothing beside a catch-all arm |
| Exhaustiveness.ExhaustiveExactly | crates/hale-runtime/src/eval.rs:400-446 | For any arms, nested patterns included, every value of the `Result` is matched by some arm if and only if the arms cover success, the errors and all arguments and payloads they look into, by a condition on the patterns alone |
| Exhaustiveness.CheckExhaustive | crates/hale-compiler/src/check.rs:773-836 | One pass over the arms and one over the variants list what is missing |
| Exhaustiveness.IrrefutableExactly | crates/hale-runtime/src/eval.rs:400-446 | A pattern counts as catch-all if and only if it matches every value |
| Exhaustiveness.OkArgumentIsNotChecked | crates/hale-compiler/src/check.rs:778-796 | `Ok(p)` and `Err(e)` are accepted for every `p`, and are exhaustive if and only if `p` is a catch-all |
| Exhaustiveness.PayloadIsNotChecked | crates/hale-compiler/src/check.rs:806-815 | A named variant is accepted with any payload pattern, and is exhaustive if and only if that is a catch-all |
| Exhaustiveness.BareOkNeverMatches | crates/hale-runtime/src/eval.rs:400-446 | `Ok` without an argument is accepted as covering success and matches no success |
| Distance.DistanceIsMinimal | crates/hale-syntax/src/diag.rs:181-208 | The distance is the least price of a script of insertions, deletions, substitutions and transpositions |
| Distance.DistanceLaws | crates/hale-syntax/src/diag.rs:181-208 | It is symmetric, zero exactly on equal names, and between the difference of the lengths and the greater length |
| Distance.Levenshtein | crates/hale-syntax/src/diag.rs:184-208 | Filling the table row by row computes it |
| Distance.ExactNameIsSuggested | crates/hale-syntax/src/diag.rs:158-179 | A name that is among the candidates is its own nearest candidate, and near enough |
| Distance.DidYouMean | crates/hale-syntax/src/diag.rs:158-179 | The suggestion is a nearest candidate within the threshold, and there is none only if no nearest candidate is within its threshold |
| Distance.ThresholdSteps | crates/hale-syntax/src/diag.rs:169-178 | In names of plain characters one edit is forgiven up to five characters, two up to eight, three beyond |

## Left out

- Frames.FreeVarsSuffice: asks that the variables really used are among the free variables; the converse does not hold, since a variable that the free variables leave out may stand where evaluation never gets to, so the condition is on the expression and not on its value.
- Refinement.WavesRefineProgramOrder: covers bodies without retry arms, since a retry binds the scrutinee a second time; and loops that read nothing an earlier iteration wrote.  Names bound twice, or bound after they are read, are outside it: the edges record only reads after writes.  It says nothing when a node that is not an effect fails in one of the two runs; such a failure may overtake an effect or be dropped with a dead node.
- Dedup.DedupPreserves: asks that the expressions of eligible fetches are told apart by their printed form and that merged fetches agree in body, `Result` annotation and contract, which the signature leaves out.
- FusionRun.FusionPreserves: the batch promise is an assumption about the endpoint: for every id, the first element of the batch with that key is what the single request returns.  Batched fetches carry no `Result` annotation and no contract, which the key leaves out.
- LoopFusionPass.LoopFusionPreserves: the same promise, and runs that do not fail at a node that is not an effect; batch names are taken to be fresh.
- OptimizerPipeline.OptimizerMeansTheSame: the rewrites are applied to the outermost body, not to nested bodies or called flows, which are marked and scheduled only.  Applied everywhere they would need names that do not clash: the names of static batches are numbered from 0 in every body, while nested bodies share the environment, so a nested batch can overwrite one that an outer scatter has yet to read.
- Optimizer.Optimizer.Optimize: the passes over one body, without the descent into nested bodies, for the same reason.
- CostBounds.RequestsBounded: covered bodies only; retry arms beside a block arm of more than one request and recursion are shown to escape the bound in `CostLimits`.
- LoopInvariance.InvariantFetchRepeats: lexically scoped runs, without calls of flows; the executor itself lets names leak out of arms and loops.
- Exhaustiveness.CheckIsExact: the shapes are `_`, bindings, `Ok`, `Err` and `Err` with a variant, with catch-all arguments; for all other arms `ExhaustiveExactly` says when they are exhaustive, and the families beside it where the check then errs.
- RoundTrip.RoundTripExactly: `match` and strings with interpolations are single tokens that the parser does not take, so they are never plain; a string without interpolations is one token.
- Literals.LiteralRoundTrip: the expressions inside `{...}` are handed to a codec; what it must satisfy is stated.
- Floating point numbers, number formatting, and sorting inside pipelines.
- HTTP, connections, timers, authentication, environment variables and files: the network is the `World`, waits take no time, the value of a declared contract is a function.
- Mocks, recording and replay, servers and routes, schema inference and export, the command line, the language server and the Python bindings.
- GETs do not see earlier mutations: the language gives them no edge to one another.
- Overflow of the counters for requests, rounds and latency: they are unbounded.  Values wrap at 64 bits as in the language.
- The bound on recursion: flow calls carry a fuel, and a call without fuel fails.
- Query parameters are compared as a multiset, and texts that the compiler compares are compared as tokens.
- Printed lines of different tasks of one round are not interleaved; the claims about rewriting ask that such nodes print nothing.
- The name of a record does not matter to its value.
- Wording and positions of diagnostics, but for the missing patterns of a match.
- Operators.UniqueAndSum: `sum` adds exactly, where the run-time system adds in floating point and rounds beyond 53 bits.
- Grammar.ParserFollowsGrammar: the grammar is the one the parser follows: signs may be repeated, which `docs/grammar.ebnf` does not allow, and entries are parted by commas, which it lets one leave out.  A lambda takes all that follows it, so a sentence with one may be read in two ways; the parser takes the longest body.
