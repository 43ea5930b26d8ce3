# A verified model of the flux-sched scheduler core

Dafny models of the parts of flux-sched (the Flux graph-based resource scheduler, written in C++) that
branch, count and update most, with proofs of what they keep. Each module follows one component; code that
works in place is a class or a method with loops, proved against functions whose meaning is stated by lemmas.

| module | component |
|---|---|
| `Common` | the optional value the other modules share |
| `XorSplit` | expanding `xor_slot` alternatives into plain requests, with the cap of 1000 |
| `Jobspec`, `SlotPacking`, `Granules`, `Exploration` | counting slots, packing them from whole edge groups, when the order of the groups matters, and stopping the exploration of children early |
| `OrConfig`, `OrTermination` | the memoised search for the best mix of `or_slot`s, the replay of its table, and when the search ends |
| `PruningFilter`, `PruningSoundness` | the coloured depth-first walk that primes the pruning filters, and exactly when pruning discards no host |
| `Criteria`, `CriteriaText` | criteria expressions: parsing, validating, evaluating and extracting, and which strings are accepted |
| `Planning`, `Rv1Update` | the planner of a vertex, and replaying an R (Flux RFC 20, the `execution` key) with undo |
| `PendingQueue`, `Backfill`, `Fcfs` | the job queues and the two kinds of scheduling pass |
| `BestK` | scored candidates and the choice of the best k units |
| `RankRemap` | renumbering the parent's ranks in a nested instance |
| `MultilevelScore` | score factors of containing resources |

`dafny verify dfyconfig.toml` checks the whole project.

Conventions. Resource types and vertices are numbers where only their identity matters. Calls into Flux,
clocks and match results are parameters: a match answer is an event, what prunes a vertex is a field of the
visit. Integers are unbounded except where a width decides a branch: the 32-bit truncation of pruning totals
(`PruningFilter`), the unsigned cap of slot counts (`SlotPacking`), the signed counts that the `or_slot` search
reads as unsigned (`OrTermination`) and the 64-bit guards of the score factor (`MultilevelScore`) are written out.

Where the code and its text differ, the model follows the code. `resource/evaluators/expr_eval_api.hpp:28-29`
says that predicates are evaluated in the order of predicate calculus; the code folds from left to right and
gives `and` and `or` the same precedence (`CriteriaText.EqualPrecedence`). `resource/readers/resource_reader_rv1exec.hpp`
lists EEXIST for malformed ranks; in the model a rank listed by two entries is accepted, because `build_rmap` first
collects all ranks into one id set (the id-set library itself is not part of this model).

Properties that fail without a condition are stated with a failure and the exact condition:

- the slot count is the same in every order of the edge groups if and only if every granule size needs the same
  number of granules for a share (`Granules.OrderMatters`, `Granules.OrderFreeExactly`);
- a filter of the free units below a vertex discards no host if and only if no vertex of two or more units there
  has units of a filter type below it (`PruningSoundness.LargeInteriorIsDiscarded`, `PruningSoundness.SafeExactly`);
- an installed filter holds those units if and only if no vertex with units of its type is passed over below, that is, is not a
  leaf, of a type that was not configured, and before every leaf of its type in depth-first order; so an installed
  filter discards no host if and only if both conditions hold for each of its types
  (`PruningSoundness.LateTypeIsDiscarded`, `PruningSoundness.FilterIsExact`, `PruningSoundness.InstalledSafeExactly`);
- the `or_slot` search returns if and only if, from all counts that granting can leave, always granting the first
  alternative that can be granted comes to an end (`OrTermination.ReturnsExactly`); it never does if one of several
  alternatives asks for nothing, and may not if one names a type twice
  (`OrTermination.EmptySlotNeverReturns`, `OrTermination.TwiceReturnsIfEven`);
- a failed update takes the job's tag from what it had taken, and restores everything if and only if none of that had
  a tag of the job before (`Rv1Update.UntakeTake`, `Rv1Update.Updater.Update`);
- the queue-depth flag of FCFS outlives a pass that ends on an error (`Fcfs.StaleFlag`, `Fcfs.LimitMeaning`);
- every visit of a traversal gives the accumulated score back if and only if, below each accepted vertex of a factor
  type, the last accepted vertex of the type has the same factor
  (`MultilevelScore.NestedNodes`, `MultilevelScore.GivesBackExactly`);
- a chosen group can be at or below a cutline that was raised later, and none is if and only if enough units are
  above it (`BestK.LateCutline`, `BestK.AboveCutline`).

## Model

| member | source | states |
|---|---|---|
| `XorSplit.SplitXorSlots` | resource/traversers/dfu_flexible.cpp:222-297 | the capped, incremental expansion with its early exits computes `Split`: the full expansion if it stays within the cap, nothing otherwise |
| `XorSplit.PushCapped` | resource/traversers/dfu_flexible.cpp:240-255 | collecting alternatives gives all of them or, past the cap, none |
| `XorSplit.CrossCapped` | resource/traversers/dfu_flexible.cpp:257-297 | the nested product loops give the whole product, or nothing exactly when its size exceeds the cap |
| `XorSplit.AddRow` | resource/traversers/dfu_flexible.cpp:258-273 | one inner loop fails exactly when its row would pass the cap |
| `XorSplit.CountBounds` | resource/traversers/dfu_flexible.cpp:230-306 | every intermediate list is no longer than the final expansion, so no early check rejects a request within the cap |
| `XorSplit.ExpandMeaning` | resource/traversers/dfu_flexible.cpp:222-297 | the expansion holds exactly the requests that keep every required sibling and pick one alternative per group, at every depth |
| `XorSplit.NoXorRemains` | resource/traversers/dfu_flexible.cpp:222-297 | a resolved request contains no xor_slot anywhere |
| `XorSplit.SplitMeaning` | resource/traversers/dfu_flexible.cpp:222-306 | the result is empty exactly when the counted expansion exceeds 1000; otherwise it is exactly the set of resolutions, as many as counted |
| `XorSplit.Select` | resource/traversers/dfu_flexible.cpp:194-220 | selection finds a matching resolution if there is one, and fails exactly when there is none or the cap is exceeded |
| `Jobspec.CalcCount` | resource/policies/base/matcher.cpp:101-143 | a count never exceeds what is qualified, and a fixed request gets all or nothing |
| `SlotPacking.BundleEndIsLeast` | resource/traversers/dfu_impl.cpp:753-771 | a bundle of whole edge groups ends at the first point that has enough units |
| `SlotPacking.GreedyIsACut` | resource/traversers/dfu_impl.hpp:487-509 | the tally's shares are realised by consecutive bundles |
| `SlotPacking.SharesIsGreatest` | resource/traversers/dfu_impl.hpp:487-509 | no way to cut the same edge groups into consecutive sufficient bundles gives more than the tally counts, and one gives as many |
| `SlotPacking.DfuSlot.IterNext` | resource/evaluators/edge_eval_api.cpp:180-189 | the iterator moves to the next edge group of one type and no other |
| `SlotPacking.DfuSlot.CntSlot` | resource/traversers/dfu_impl.cpp:686-724 | the count is the least share count over the shape, computed in one pass over every type |
| `SlotPacking.DfuSlot.TakeBundle` | resource/traversers/dfu_impl.cpp:753-771 | takes the shortest run of whole groups that reaches the count and fails only if none is left |
| `SlotPacking.DfuSlot.Pack` | resource/traversers/dfu_impl.cpp:748-777 | on explored groups the packing loop never exhausts them for up to the counted slots, and gives slot i its own bundles |
| `SlotPacking.MatchChild` | resource/traversers/dfu_impl.cpp:305-342 | a child is taken up exactly when one sibling, and no second, asks for its type |
| `SlotPacking.ExploreSlot` | resource/traversers/dfu_impl.cpp:460-497 | the groups collected for a type are those of the matched children in order, and none for a type asked for twice; it fails exactly when nothing is found for any type |
| `SlotPacking.RepeatedTypesGetNothing` | resource/traversers/dfu_impl.cpp:366-407 | a shape that gets a slot names no type twice |
| `SlotPacking.DomSlot` | resource/traversers/dfu_impl.cpp:726-783 | counting and packing agree: the match succeeds exactly when the shape asks for something and the count is positive, and then yields that many slots, each with its own bundles |
| `SlotPacking.PackedBundle` | resource/traversers/dfu_impl.cpp:753-771 | each packed bundle reaches its count and would not without its last group |
| `SlotPacking.SlotCountIsGreatest` | resource/traversers/dfu_impl.cpp:686-724 | whatever can be cut for every element of the shape is at most the slot count |
| `Granules.UniformShares` | resource/traversers/dfu_impl.cpp:686-724 | if every granule size needs the same number b of granules for a share, the share count is floor(n / b), in any order |
| `Granules.OrderMatters` | resource/traversers/dfu_impl.cpp:686-724 | for any two sizes that need different numbers there are groups of these sizes whose share count changes when they are reordered |
| `Granules.OrderFreeExactly` | resource/traversers/dfu_impl.hpp:487-509 | the share count is the same in every order of the groups if and only if all granule sizes need the same number for a share |
| `Exploration.ExploreDynamically` | resource/traversers/dfu_impl.cpp:543-600 | stopping early means every element has its shares; not stopping means every child skipped was of a type already satisfied |
| `Exploration.TallyShares` | resource/traversers/dfu_impl.cpp:499-514 | what each child finds counts as one bundle, so that the shares tallied are consecutive sufficient bundles of the groups collected so far; a satisfied type stays satisfied |
| `Exploration.NewSatTypes` | resource/traversers/dfu_impl.cpp:525-541 | a type is satisfied exactly when it was, or when it is asked for and its tally now has the shares |
| `Exploration.IsEnough` | resource/traversers/dfu_impl.cpp:516-523 | enough exactly when the type of every element has its shares |
| `Exploration.SharesAreReal` | resource/traversers/dfu_impl.cpp:499-523 | a tally never claims more shares than the collected groups can be packed into |
| `Exploration.EarlyStopStillPacks` | resource/traversers/dfu_impl.cpp:543-600 | an exploration stopped early still packs the wanted number of slots after the groups were sorted by score, if the granules of each type need the same number for a share |
| `OrConfig.OrTable.SelectOrConfig` | resource/traversers/dfu_flexible.cpp:308-382 | where it ends, the memoised recursion stores, for every counts map it visits, the row of the plain recursion |
| `OrConfig.OrTable.TryEverySlot` | resource/traversers/dfu_flexible.cpp:348-381 | the loop over the alternatives keeps the row of the best one |
| `OrConfig.TakeSlot` | resource/traversers/dfu_flexible.cpp:352-364 | subtracts one slot's demand, or finds that it does not fit |
| `OrConfig.TakeFixed` | resource/traversers/dfu_flexible.cpp:352-364 | with fixed counts a slot fits exactly when its demand does, and leaves the difference |
| `OrConfig.CountSingle` | resource/traversers/dfu_flexible.cpp:325-346 | the shortcut for a single or_slot computes its own closed form |
| `OrConfig.PlanLeads` | resource/traversers/dfu_flexible.cpp:348-382 | a row with a positive score names a slot that fits and a next key scoring one less |
| `OrConfig.ScoreIsOptimal` | resource/traversers/dfu_flexible.cpp:308-382 | the score is the greatest number of slots, in any mix and order, whose combined demand fits the counts |
| `OrConfig.SingleScoreIsOptimal` | resource/traversers/dfu_flexible.cpp:325-346 | for one or_slot the score is the greatest multiple of its demand that fits, up to the wanted number |
| `OrConfig.ReplayStep` | resource/traversers/dfu_flexible.cpp:446-484 | following stored next-keys for score steps always finds a row with a valid slot and non-negative counts |
| `OrConfig.DomSlotFlexible` | resource/traversers/dfu_flexible.cpp:384-490 | it fails if exploring found nothing; with unit-sized groups and fixed counts the packing loop never runs out: it builds exactly score slots, each from its own consecutive groups |
| `OrConfig.ScoreNeedsGroups` | resource/traversers/dfu_flexible.cpp:428-438 | alternatives that ask for something score nothing where exploring found nothing |
| `OrTermination.ReturnsExactly` | resource/traversers/dfu_flexible.cpp:308-382 | for all alternatives and counts, the memoised search returns if and only if, from all counts that granting any alternatives can leave, always granting the first that can be granted comes to an end |
| `OrTermination.NeverReturns` | resource/traversers/dfu_flexible.cpp:348-372 | counts from which the first grantable alternative leads to counts of the same kind are never returned from, whatever the number of nested calls |
| `OrTermination.EmptySlotNeverReturns` | resource/traversers/dfu_flexible.cpp:348-372 | among two or more alternatives one that asks for nothing keeps the search from returning on any counts |
| `OrTermination.TwiceReturnsIfEven` | resource/traversers/dfu_flexible.cpp:352-362 | with a pair of one type named one by one the search returns if and only if the count of the type is even: an odd one goes below zero and reads as a large one |
| `OrTermination.DescentReturns` | resource/traversers/dfu_flexible.cpp:308-382 | where every grantable alternative leads to counts of less weight, the search returns, whatever is in the table |
| `OrTermination.ValidSlotsReturn` | resource/traversers/dfu_flexible.cpp:308-382 | alternatives that each ask for something and name no type twice: the search returns on all counts that are not negative |
| `OrTermination.SteadyExactly` | resource/traversers/dfu_flexible.cpp:352-362 | granting leaves less and nothing negative, from all counts that are not negative, if and only if every alternative asks for something and names no type twice |
| `OrTermination.TakeAgrees` | resource/traversers/dfu_flexible.cpp:352-362 | there the unsigned reading changes nothing: granting a slot is what the search model says |
| `PruningFilter.Walk.PrimePruningFilter` | resource/traversers/dfu_impl.cpp:1227-1293 | on any graph, cycles and shared children included, a visit lists exactly what depth-first order finds anew, each vertex once, and terminates on the white vertices |
| `PruningFilter.Walk.PrimeExp` | resource/traversers/dfu_impl.cpp:447-458 | after exploring a vertex every child in the subsystem has been seen, and the totals hold what was newly seen |
| `PruningFilter.Walk.MergeInto` | resource/traversers/dfu_impl.cpp:416-445 | merging totals adds them type by type with the source's 32-bit truncation |
| `PruningFilter.Walk.Initialize` | resource/traversers/dfu.cpp:345-357 | a walk from a fresh colour visits exactly the reachable vertices, each once, in the depth-first order of the graph; a size is accumulated if and only if the vertex is a leaf, its type was configured, or a leaf of its type comes earlier; which vertices get a filter, of which types, and what it holds follow from that; the root total of a type configured, or found only at leaves, is the sum of sizes over the reachable set |
| `PruningFilter.WholeWalk` | resource/traversers/dfu_impl.cpp:1227-1293 | what one whole walk amounts to: reachability in both directions and one visit each |
| `PruningFilter.WholeRecord` | resource/traversers/dfu_impl.cpp:1227-1253 | after a walk each vertex has seen what depth-first order says, and counts exactly as stated above |
| `PruningFilter.WholeFilters` | resource/traversers/dfu_impl.cpp:1254-1288 | a vertex has a filter if and only if its types, from what was configured and the leaves seen until it is left, are not empty; the filter has exactly these types |
| `PruningFilter.MoreAnchored` | resource/policies/base/matcher.cpp:210-236 | a new leaf type is added to the types of the cluster and to no other anchor, whichever branch adds it |
| `PruningFilter.WholeTotals` | resource/traversers/dfu_impl.cpp:416-458 | totals below 2^32 are exact for tracked types |
| `PruningFilter.UnderIsBelow` | resource/traversers/dfu_impl.cpp:54-64 | in a tree a vertex's filter is about exactly its proper descendants |
| `PruningSoundness.PrimeJobspec` | resource/traversers/dfu_impl.cpp:1295-1314 | every resource is annotated with the demand of each tracked type below it |
| `PruningSoundness.DemandCovered` | resource/traversers/dfu_impl.cpp:1295-1314 | a placement on thin vertices uses at least the computed demand, type by type |
| `PruningSoundness.CoversExactly` | resource/traversers/dfu_impl.cpp:166-205 | over all requests and placements: what a set of vertices hosts never asks for more than it has of a type if and only if no vertex of two or more units in it has units of the type below it |
| `PruningSoundness.SafeExactly` | resource/traversers/dfu_impl.cpp:166-205 | a filter holding the free units below a vertex discards no request hosted there if and only if the same holds for each of its types |
| `PruningSoundness.InteriorIsThin` | resource/traversers/dfu_impl.cpp:166-205 | the condition holds for every type where only leaves have more than one unit |
| `PruningSoundness.FilterKeepsHosts` | resource/traversers/dfu_impl.cpp:166-205 | such a filter keeps a vertex that can host the request |
| `PruningSoundness.FilterIsExact` | resource/traversers/dfu_impl.cpp:1227-1293 | a filter that the walk installed holds the units found below its vertex if and only if none of the type is passed over: a condition on the graph, its depth-first order and the configured types |
| `PruningSoundness.InstalledSafeExactly` | resource/traversers/dfu_impl.cpp:166-205 | an installed filter with totals below 2^32 discards no request hosted below its vertex if and only if, for each of its types, nothing is passed over and all vertices are thin |
| `PruningSoundness.TrackedIsNotMissed` | resource/traversers/dfu_impl.cpp:1239-1253 | a type that was configured, or that only leaves have, is never passed over |
| `PruningSoundness.AboveItsLeavesIsPassedOver` | resource/traversers/dfu_impl.cpp:1239-1253 | in a tree an inner vertex above every leaf of its type is passed over in every order of the edges |
| `PruningSoundness.PrimedFilterKeepsHosts` | resource/traversers/dfu_impl.cpp:166-205 | the installed filters keep every host for types configured from the start or found only at leaves, thin vertices and totals below 2^32 |
| `PruningSoundness.PrimeGraphAndRequest` | resource/traversers/dfu.cpp:345-357 | end to end: after priming the graph and the request, on any graph a filter holds what was found below exactly where nothing was passed over, and on a tree it is safe exactly where its types are sound |
| `PruningSoundness.LateTypeIsDiscarded` | resource/traversers/dfu_impl.cpp:1227-1293 | priming a chain with an inner vertex above the only leaf of its type installs a filter that counts one unit of two, and discards a host |
| `PruningSoundness.LargeInteriorIsDiscarded` | resource/traversers/dfu_impl.cpp:166-205 | any vertex of two or more units with units of a type below it lets a request be hosted whose aggregate exceeds what there is, so that an exact filter discards it |
| `Criteria.FindClosingParen` | resource/evaluators/expr_eval_api.cpp:35-52 | finds the parenthesis that balances the first one, or fails |
| `Criteria.Validate` | resource/evaluators/expr_eval_api.cpp:308-335 | succeeds exactly when the string parses and the target accepts every predicate |
| `Criteria.Evaluate` | resource/evaluators/expr_eval_api.cpp:337-368 | computes the left fold of the parsed string, having consulted the predicates from left to right |
| `Criteria.Extract` | resource/evaluators/expr_eval_api.cpp:370-397 | hands over what the target extracts from each predicate, in order |
| `Criteria.WalksAgree` | resource/evaluators/expr_eval_api.cpp:121-397 | for every string, validating succeeds exactly when evaluating does, if the target evaluates what it finds valid; extraction hands over exactly the predicates evaluation consults, if the target extracts what it finds valid |
| `CriteriaText.ParsePrinted` | resource/evaluators/expr_eval_api.cpp:35-119 | writing an expression down, with any blanks, with or without written `and`, and with parentheses in predicates where groups still close, and parsing it gives the expression back |
| `CriteriaText.AcceptedExactly` | resource/evaluators/expr_eval_api.cpp:35-275 | the strings that parse as an expression are exactly the ways of writing it down |
| `CriteriaText.EvaluatePrinted` | resource/evaluators/expr_eval_api.cpp:337-368 | a printed chain evaluates as a left fold, a missing operator being `and` |
| `CriteriaText.EqualPrecedence` | resource/evaluators/expr_eval_api.cpp:260-275 | `a or b and c` is `(a or b) and c` |
| `CriteriaText.EvaluateTree` | resource/evaluators/expr_eval_api.cpp:210-275 | the parenthesised print of any and/or tree evaluates to the tree's truth value |
| `Planning.AvailDuring` | resource/planner/c/planner_c_interface.cpp:210-231 | the least amount free at any moment of the window |
| `Planning.AddSpanHolds` | resource/planner/c/planner_c_interface.cpp:519-558 | an added span holds its request exactly during its window, and no moment is ever oversubscribed |
| `Planning.RemUndoesAdd` | resource/planner/c/planner_c_interface.cpp:560-606 | removing a span that was just added gives all spans back |
| `Planning.FullRefuses` | resource/planner/c/planner_c_interface.cpp:187-208 | a planner that gave its total during a window gives nothing more there |
| `Rv1Update.FindVertex` | resource/readers/resource_reader_rv1exec.cpp:209-247 | the first vertex with that path, rank, id, type and size 1 |
| `Rv1Update.BuildRmap` | resource/readers/resource_reader_rv1exec.cpp:500-556 | each listed rank is mapped to the number of smaller listed ranks |
| `Rv1Update.TakeMeans` | resource/readers/resource_reader_rv1exec.cpp:287-305 | a taken vertex holds one more span, of its full size over the job's time, under the job's tag |
| `Rv1Update.UntakeTake` | resource/readers/resource_reader_rv1exec.cpp:311-347 | giving back restores the spans always, and the tags exactly when the job had none on the vertex |
| `Rv1Update.NotTwice` | resource/readers/resource_reader_rv1exec.cpp:249-309 | a vertex listed twice is refused the second time |
| `Rv1Update.CountIsAll` | resource/readers/resource_reader_rv1exec.cpp:406-411 | the count test decides whether every other vertex of the rank is taken |
| `Rv1Update.VisitStep` | resource/readers/resource_reader_rv1exec.cpp:708-785 | visiting one more rank keeps: taken are the listed vertices and the listed nodes whose rank is listed completely |
| `Rv1Update.Updater.UpdateVertex` | resource/readers/resource_reader_rv1exec.cpp:249-309 | succeeds exactly on a vertex that is free and not yet taken, and takes it unless it is a node |
| `Rv1Update.Updater.UpdateExclusivity` | resource/readers/resource_reader_rv1exec.cpp:382-439 | fails exactly when no vertex of the rank is taken or the node is not free where needed; takes the node if and only if all other vertices of its rank are taken |
| `Rv1Update.Updater.UnpackChild` | resource/readers/resource_reader_rv1exec.cpp:616-675 | succeeds exactly when the ids decode and each names an existing, connected, free vertex not taken before, and then takes exactly these |
| `Rv1Update.Updater.UnpackRank` | resource/readers/resource_reader_rv1exec.cpp:708-785 | succeeds exactly when the rank's node and all that is listed below it can be granted and the rank has a taken vertex; takes what is listed, then the node if that completes the rank |
| `Rv1Update.Updater.UndoVertices` | resource/readers/resource_reader_rv1exec.cpp:311-347 | the undo never fails and leaves no recorded vertex with the job's span or tag |
| `Rv1Update.NothingIgnored` | resource/readers/resource_reader_rv1exec.cpp:616-864 | in an R that can be applied every rank has its node, every id list decodes and every listed child was found |
| `Rv1Update.Updater.Update` | resource/readers/resource_reader_rv1exec.cpp:1033-1074 | succeeds exactly when R applies: everything listed is found, connected, free and granted once, and every rank has a taken vertex; then exactly the wanted vertices are taken; on failure what had been taken, only vertices R names, loses the job's tag and nothing else changes, so that every vertex's spans and tables equal the pre-state if and only if nothing taken had a tag of the job, as with a fresh job id |
| `PendingQueue.MergeSorted` | qmanager/policies/base/queue_policy_base.hpp:305-316 | merging two disjoint queues keeps the order of the pending keys |
| `PendingQueue.NumMerge` | qmanager/policies/base/queue_policy_base.hpp:305-316 | merging loses and invents no job |
| `Backfill.StepPartition` | qmanager/policies/queue_policy_bf_base_impl.hpp:131-266 | whatever the answer, each job stays in exactly one of pending, provisional, blocked, running and rejected |
| `Backfill.StepOrder` | qmanager/policies/queue_policy_bf_base_impl.hpp:72-104 | the waiting queues stay in key order |
| `Backfill.StepLoop` | qmanager/policies/queue_policy_bf_base_impl.hpp:38-69 | in a pass the reservation count equals the number of reserved jobs, stays within the depth, and the reserved jobs are all before the cursor |
| `Backfill.StepEstimates` | qmanager/policies/queue_policy_bf_base_impl.hpp:152-244 | a waiting job has was_reserved if and only if its start estimate is not 0 |
| `Backfill.LostEstimateIsFlagged` | qmanager/policies/queue_policy_bf_base_impl.hpp:224-244 | a job loses its start estimate only by a busy answer about it, and never without the flag that has the loss transmitted |
| `Backfill.RunValid` | qmanager/policies/queue_policy_bf_base_impl.hpp:131-293 | all of this over every run of inserts, passes, answers, cancellations and reconsiderations |
| `Backfill.AnswerShrinks` | qmanager/policies/queue_policy_bf_base_impl.hpp:131-266 | an answered match takes exactly the job it answers off the queue ahead of the cursor |
| `Backfill.PassStartBounds` | qmanager/policies/queue_policy_bf_base_impl.hpp:38-104 | however it is answered, a pass counts at most queue-depth answers; the answered jobs are the front of the merged queue in key order, so none is answered twice |
| `Backfill.CancelStops` | qmanager/policies/queue_policy_bf_base_impl.hpp:282-293 | after a cancel no match is issued until the next pass, and at most one answer still counts |
| `Backfill.ReservedHistory` | qmanager/policies/queue_policy_bf_base_impl.hpp:152-168 | the reserved table lists exactly the jobs whose answers reserved them in this pass, in order |
| `Backfill.LabelMeaning` | qmanager/policies/queue_policy_bf_base_impl.hpp:171-189 | a started job is labelled reserved, backfill or immediate exactly by whether it held a reservation and whether a job before it was reserved in the same pass |
| `Backfill.BackfillPolicy.RunSchedLoop` | qmanager/policies/queue_policy_bf_base_impl.hpp:269-279 | starts a pass, or does nothing while one is active |
| `Backfill.BackfillPolicy.NextMatchIter` | qmanager/policies/queue_policy_bf_base_impl.hpp:38-69 | issues the next match or ends the pass |
| `Backfill.BackfillPolicy.HandleMatchSuccess` | qmanager/policies/queue_policy_bf_base_impl.hpp:131-193 | the fields change as the run model says, including an answer for another job |
| `Backfill.BackfillPolicy.HandleMatchFailure` | qmanager/policies/queue_policy_bf_base_impl.hpp:196-266 | rejects, passes over or blocks the job as the run model says; end of data changes nothing |
| `Backfill.BackfillPolicy.CancelSchedLoop` | qmanager/policies/queue_policy_bf_base_impl.hpp:282-293 | defers the cancel while a pass is active |
| `Backfill.BackfillPolicy.ReconsiderBlockedJobs` | qmanager/policies/base/queue_policy_base.hpp:305-325 | blocked jobs become pending at once, or when the pass ends |
| `Fcfs.MatchMultiRequest` | resource/modules/resource.cpp:461-528 | the loop answers each matched job in order and ends the stream with one error |
| `Fcfs.DeliverInStep` | qmanager/policies/queue_policy_fcfs_impl.hpp:94-145 | a delivered answer is about the job at m_iter, and the rest of the stream stays in step |
| `Fcfs.RunLockstep` | qmanager/policies/queue_policy_fcfs_impl.hpp:62-145 | policy and responder stay in lockstep over every run of inserts, passes and deliveries |
| `Fcfs.RunProgress` | qmanager/policies/queue_policy_fcfs_impl.hpp:94-145 | whatever is inserted in between, the answers delivered so far account for every move |
| `Fcfs.PassOutcome` | qmanager/policies/queue_policy_fcfs_impl.hpp:62-145 | a pass starts exactly the packed jobs before the first that does not match, rejects at most that one, and its last answer leaves the loop inactive |
| `Fcfs.StartTimes` | qmanager/policies/queue_policy_fcfs_impl.hpp:94-117 | after any deliveries every started job has the start time of its match, and keeps it |
| `Fcfs.LimitMeaning` | qmanager/policies/queue_policy_fcfs_impl.hpp:55-145 | a delivered pass asks for another exactly when a job was inserted meanwhile, when its last job cannot be satisfied, or when all packed jobs matched and jobs are left or the flag was already set |
| `Fcfs.StaleFlag` | qmanager/policies/queue_policy_fcfs_impl.hpp:133-139 | a pass ended by an error leaves the flag set, and the next one asks for a pass over an empty queue |
| `Fcfs.FcfsPolicy.PackJobs` | qmanager/policies/queue_policy_fcfs_impl.hpp:27-59 | packs the front of the queue up to the depth and sets the flag when jobs are left over |
| `Fcfs.FcfsPolicy.RunSchedLoop` | qmanager/policies/queue_policy_fcfs_impl.hpp:62-91 | merges the waiting jobs and sends the packed ones in one request |
| `Fcfs.FcfsPolicy.HandleMatchSuccess` | qmanager/policies/queue_policy_fcfs_impl.hpp:94-117 | starts the job at m_iter at the time of the answer, or refuses an answer for another |
| `Fcfs.FcfsPolicy.HandleMatchFailure` | qmanager/policies/queue_policy_fcfs_impl.hpp:120-145 | rejects the job at m_iter unless it was busy or the stream ended, and always ends the pass |
| `BestK.Sort` | resource/evaluators/edge_eval_api.hpp:83-83 | a sorted permutation |
| `BestK.Evals.Add` | resource/evaluators/edge_eval_api.cpp:109-116 | total and qualified counts follow the groups |
| `BestK.Evals.Merge` | resource/evaluators/edge_eval_api.cpp:160-173 | merges only equal types and cutlines, and adds the counts |
| `BestK.Select` | resource/evaluators/edge_eval_api.hpp:84-94 | the greedy loop stays in bounds: the first groups are used up in order and their needs add to exactly k |
| `BestK.Evals.ChooseBestK` | resource/evaluators/edge_eval_api.hpp:73-96 | chooses from the sorted groups for 0 < k <= qualified and fails otherwise; in descending order every chosen group is above the cutline if and only if k units are |
| `BestK.NoneLeftOutIsBetter` | resource/evaluators/edge_eval_api.hpp:73-96 | no unit left out is better than a unit selected, in any order |
| `BestK.AboveCutline` | resource/evaluators/edge_eval_api.hpp:73-96 | no group at or below the cutline is chosen if and only if the groups above it have k units |
| `BestK.LateCutline` | resource/evaluators/edge_eval_api.cpp:143-148 | a cutline changed after a group was added does not keep the group from being chosen |
| `BestK.BestKIsOptimal` | resource/evaluators/edge_eval_api.hpp:73-96 | no other way to take k units has a greater score summed over the units taken |
| `RankRemap.FindIsUnique` | resource/readers/resource_namespace_remapper.cpp:61-66 | with disjoint keys, overlap as equality finds exactly the range that contains a point |
| `RankRemap.AddedAscending` | resource/readers/resource_namespace_remapper.cpp:121-156 | whatever is added, the keys stay pairwise disjoint and ascending |
| `RankRemap.UnpackResobj` | resource/modules/resource_match.cpp:593-657 | the ranges in ascending order, or an error because two of them overlap |
| `RankRemap.Remapper.Add` | resource/readers/resource_namespace_remapper.cpp:121-156 | adds one reference id, or leaves the map alone if the range only overlaps a key or the id is taken |
| `RankRemap.Remapper.AddExecTargetRange` | resource/readers/resource_namespace_remapper.cpp:177-202 | succeeds exactly when the lengths agree and every rank can be added in turn, and then has added them |
| `RankRemap.Remapper.RemapJgfNamespace` | resource/modules/resource_match.cpp:679-739 | from an empty remapper it succeeds exactly when every range of the parent has a counterpart with as many cores and lists no core twice; then there is one key per range, its ranks numbered on from the ranges before it |
| `RankRemap.RemapIsPosition` | resource/readers/resource_namespace_remapper.cpp:218-229 | a query gives the number of smaller ranks of the parent, and nothing for other ranks |
| `RankRemap.RemapCores` | resource/modules/resource_match.cpp:722-729 | each core of a parent's range is remapped to the core listed in the same place |
| `RankRemap.RemapIsBijection` | resource/modules/resource_match.cpp:679-739 | an order-preserving bijection from the parent's ranks onto 0..N-1 |
| `MultilevelScore.CalcFactor` | resource/policies/dfu_match_multilevel_id_impl.hpp:33-60 | no step leaves 64 bits, and it fails exactly when an argument is negative or the true factor does not fit |
| `MultilevelScore.FactorIncreases` | resource/policies/dfu_match_multilevel_id_impl.hpp:33-60 | a larger base gives a larger factor, whatever breaks the ties |
| `MultilevelScore.FactorEqual` | resource/policies/dfu_match_multilevel_id_impl.hpp:33-60 | two vertices have equal factors if and only if their ids and tie breakers are equal |
| `MultilevelScore.MultilevelId.DiscoverVtx` | resource/policies/dfu_match_multilevel_id_impl.hpp:131-147 | adds the factor of the vertex and remembers it, or changes nothing |
| `MultilevelScore.MultilevelId.FinishVtx` | resource/policies/dfu_match_multilevel_id_impl.hpp:149-187 | takes the remembered factor off and scores the vertex by what is left |
| `MultilevelScore.MultilevelId.AddScoreFactor` | resource/policies/dfu_match_multilevel_id_impl.hpp:206-226 | adds a factor type once |
| `MultilevelScore.MultilevelId.DomDfv` | resource/traversers/dfu_impl.cpp:785-861 | whatever contains what, a visit moves the accumulated score by its drift, remembers the factor of the last accepted vertex of each type, and scores each met vertex by the total at its end |
| `MultilevelScore.GivesBackExactly` | resource/policies/dfu_match_multilevel_id_impl.hpp:131-187 | every visit gives the score back if and only if, below each accepted vertex of a factor type, the last accepted vertex of that type has the same factor |
| `MultilevelScore.ScoresAreIntended` | resource/policies/dfu_match_multilevel_id.hpp:21-29 | then every met vertex is scored by its own id and the factors of exactly those that contain it |
| `MultilevelScore.NotNestedIsSame` | resource/policies/dfu_match_multilevel_id_impl.hpp:131-187 | which is so where no factor type contains itself |
| `MultilevelScore.MultilevelId.Traverse` | resource/traversers/dfu_impl.cpp:785-861 | a whole traversal then leaves the total as it was |
| `MultilevelScore.NestedNodes` | resource/policies/dfu_match_policy_factory.cpp:155-174 | with the factor that is configured, a traversal of a node inside a node leaves the difference of their factors in the score, which is 0 only for equal ids and tie breakers |

## Left out

- Flux RPC, the reactor, JSON and YAML decoding, logging and clocks; requests, responses and decoded texts are values.
- Readers other than the update half of rv1exec: building graphs from hwloc, GRUG or JGF, and the JGF reader's own update, which is not undone completely on an edge failure.
- The planner's trees of scheduled points, planner_multi and the time search of the planner; a planner is its spans.
- The scores that a packed slot adds up from its edge groups.
- Jobspec.CalcCount: the `*` and `^` operators are not modelled, only `+`.
- Aggregating or_slots in the flexible `prime_jobspec`; its minimum depends on the order of the types.
- Job cancellation, reprioritising and completion in the queues, and the deferred handling of the first two at the end of a pass.
- Transmission of annotations after a pass; only the flag that requests it is modelled.
- Match policies other than multilevel-id, feasibility checks, writers, statistics and module options.
- Exclusivity checkers, aggregate updates of the traverser after a match, and the marks an rv1exec update leaves on edges.
- Texts of rank ranges, id sets and host names: ranges, id lists and split host names are given.
- SlotPacking.DfuSlot.Pack: states nothing for more slots than were counted; the source asks only for the counted ones.
- OrConfig.OrTable.SelectOrConfig: only for alternatives that each ask for something and name no type twice; OrTermination states what the search does on the others.
- OrConfig.DomSlotFlexible: states success for unit-sized groups, fixed counts and alternatives that name no type twice; with larger granules search and packing need not agree, and repeated types are covered as far as the search returns (OrTermination).
- Exploration.EarlyStopStillPacks: only for shapes without a repeated type, fixed counts and granules that need the same number for a share; otherwise the count depends on the order (Granules.OrderFreeExactly).
- PruningSoundness.PrimedFilterKeepsHosts: is one sufficient condition; InstalledSafeExactly states the exact one. Safety is stated on trees; on other graphs a filter leaves out what was visited before, and only what it holds is stated.
- PruningFilter.Walk.Initialize: is one subsystem; the exact total at the root is stated for types configured or found only at leaves, and for the others what was counted.
- Fcfs.FcfsPolicy.HandleMatchSuccess: the R and the overhead of an answer, which the policy only stores, are not recorded.
- BestK.Evals.ChooseBestK: the casts to signed integers for counts of 2^31 and more are not modelled.
- RankRemap.Remapper.RemapJgfNamespace: stops with an error where the source would read past the end of a shorter core list.
- MultilevelScore.MultilevelId.DomDfv: the unguarded 64-bit sum of several factors is an unbounded integer.
- Rv1Update.Updater.Update: the id counters of the planners are not restored by an undo, in the source as in the model.
