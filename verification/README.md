# Sharded training with offloaded optimizer and collectives: a verified model

This project models a ZeRO-3 training engine whose parameters, gradients and optimizer state are sharded
over ranks, whose collectives run on a data-path processor, and whose Adam step runs beside the backward
pass. It proves, for every input, run and interleaving, what the engine promises.

Check it with `dafny verify dfyconfig.toml`.

## How it is organised

| files | subject |
|---|---|
| Prelude, Blocks | shared vocabulary: sets of ids, flat buffers, slices |
| CoordinatorState, CoordinatorPool, CoordinatorTrace, CoordinatorRuns, CoordinatorTheorems | the parameter coordinator: state, registry invariant, recorded trace, whole runs, theorems |
| CoordinatorLoops, CoordinatorChecked, Coordinator | its loops one turn at a time, the code with every check left in, and the class that updates its fields in place |
| CoordinatorEffects, CoordinatorDetermined | what every hook does, as relations between two states, and that they determine the next state |
| CoordinatorFailures, CoordinatorExample | when its checks raise, on any state; a run that gathers a parameter twice |
| Shards, ReduceScatter | partitioning, the three ways to gather, the coalesced reduce-scatter |
| SubGroups, ShardedStep, ShardedRuns | flat optimizer buffers, the proof that sharded training equals unsharded training, and that it can always go on |
| GradientSpec, GradientRuns, GradientTheorems, GradientPipeline | the bucket and the one-deep deferred reduce-scatter, against the synchronous baseline |
| GradientViews, GradientAdds, GradientOld, GradientHeld, GradientOutputs, GradientExamples | which models and passes can overwrite an unread view or add to old values; what a pass leaves for the next; two passes that leave wrong gradients |
| GradientOrders, GradientDelivery, GradientPasses | passes in any hook order, how they feed the sharded step, and that there are some for every model |
| DelayedUpdate, DelayedSharding | the delayed optimizer step as a protocol between main thread and worker, and on the shards of all ranks |
| TrainingElements | synchronous and delayed training element by element |
| FlagPool, Codec, CodecLayout | completion flags; control messages, their bytes and their structs |
| CpuCache, CpuCacheEffects | CPU copies of full parameters, on top of the coordinator's runs, and what every hook does to them |

Where the source changes state, a class or method does so here too, and its contract equates the new state
with a function of the old one; the theorems are about those functions, and what they compute is stated a second time
without them, by relations and element by element. Every raise and assert of the coordinator
is an error of CoordinatorChecked, decided by its own condition; those that can never fire are in the class an
`assert` at the same place. Proofs use `hide`, which only narrows what the verifier looks at.

## What is assumed

- Modules have distinct ids and fixed parameter lists; the recursive parameter list of the root covers them.
- A module is released only after it was fetched; everything is partitioned only between iterations. Modules
  may nest, be re-entered and share parameters in any way.
- Sets are iterated in any order; torch.empty and collective padding contain anything.
- Tensors are lists of reals; the cast to fp16 is any function of one element; the optimizer is any rule that
  works element by element. The bit arithmetic of the flag pool and the 64-bit lengths of messages are modelled
  as they are.
- A collective completes at any moment between submission and wait, and reads its input and writes its output
  at that moment. In the gradient pipeline one rank is modelled and the other ranks' contribution to each slice
  is a parameter; GradientDelivery puts all ranks together, with the others' gradients for that parameter.
- The communication data type is fp16 and one micro step is accumulated, as the wrapper sets them up.

## What the code does that its comments do not say

- After reset_step the availability counter is zero although persistent or unreleased parameters may be live, so
  the budget is off by the live size at the last reset (`Accounting`, `PrefetchLimits`).
- With a reuse distance of zero, the default of the training script, a parameter prefetched for the coming step
  can be freed by the release just before it and is then gathered again (`SurvivesRelease`, `PrefetchedThenFreed`).
- reset_step compares the recorded parameter order across ranks before that order is built
  (`ComparedParamOrderIsEmpty`).
- The last bucket of a pass is taken after the micro step was counted and is therefore added to whatever its place
  held, unless the output already is that place (`TakingIsExact`, `LastBucketAdds`). The buffer is zeroed only when it
  is allocated; which passes and which models this can happen to is decided by `LastFlushBySizes` and
  `AddsIffScattered`.
- A bucket of one evenly divisible gradient is reduced where it lies in the bucket buffer, and the next gradient
  can be copied over it before it was read (`OverwriteExact`, `ViewOverwritten`); which models this can happen to
  is decided by their sizes (`OverwritesIffClash`).
- The contiguity test compares only the ends of a bucket (`ContiguityExact`, `ContiguityFooled`); shards lie in
  bucket order when flat buffers list parameters by id, which several optimizer groups need not do.
- An empty optimizer parameter group shifts or misses the flat buffers looked up by group index
  (`EveryGroupFindsItsBuffer`). The wrapper removes empty groups first (zero_wrapper_example.py:300-302), so this takes an
  optimizer built without it, or a group whose parameters have no elements.
- The worker's optimizer gets a plain list of tensors and has one parameter group. A sub-group cut from a second one is
  looked up beyond it: the worker dies and the main thread never gets past the receive in update_new_params
  (`GoesOnIffOneGroup`, `DelayedGoesOnIff`).
- The worker's optimizer starts empty: it has not seen the step with zero gradients, so one that counts its steps is
  one behind the main thread's (`StartsAgree`), and it uses the default options for every parameter.
- The list that should catch a gradient reduced twice is never set, so its assert cannot fire.
- The flag pool leaves it to its callers not to reuse a slot early (`NeglectLoses`).

## Model

| member | source | states |
|---|---|---|
| `CoordinatorEffects.HooksObey` | src/smartnic_offload/partitioned_param_coordinator.py:54-448 | what every hook of every legal run does, parameter by parameter and without naming the specification functions: statuses, users, registrations, handles and their order, the counter, the queue, the notes of what left it, the recorded order |
| `CoordinatorDetermined.HookDetermined` | src/smartnic_offload/partitioned_param_coordinator.py:54-448 | that description leaves nothing open: two states that agree in every answer agree again after any hook that obeys it |
| `CoordinatorTheorems.OpenModulesReady` | src/smartnic_offload/partitioned_param_coordinator.py:269-285 | from the end of a module's fetch to its release, through any nesting, prefetching and other releases, its parameters are available, unregistered, and no release of another module can free them |
| `CoordinatorTheorems.RegistryOverRuns` | src/smartnic_offload/partitioned_param_coordinator.py:54-65 | in every reachable state: partitioned means unregistered, in flight means registered, and an incomplete shared handle has all its parameters in flight and registered under it |
| `CoordinatorChecked.OnlyTwoFailures` | src/smartnic_offload/partitioned_param_coordinator.py:54-413 | with every raise and assert of the coordinator decided where it stands by its own condition, a legal run in which each set is visited in any order can fail only by fetching past the end of a completed trace or by ending an iteration with something registered, and fails exactly at the first event that does so |
| `CoordinatorChecked.EveryOrderAgrees` | src/smartnic_offload/partitioned_param_coordinator.py:54-448 | the loops of the code, run one parameter at a time in any visiting order with all their checks, end every legal run in the state the specification names |
| `CoordinatorChecked.AscendingEnumerates` | src/smartnic_offload/partitioned_param_coordinator.py:269-286 | there is an order in which to visit every set, so the statements about all orders say something |
| `CoordinatorChecked.GatherChecks` | src/smartnic_offload/partitioned_param_coordinator.py:384-399 | issuing and registering a gather raises nothing in any order: nothing is gathered twice, registered twice or not in flight |
| `CoordinatorChecked.UseChecks` | src/smartnic_offload/partitioned_param_coordinator.py:269-286 | the wait loop raises nothing in any order: every handle finds its parameters in flight, and every parameter ends up available |
| `CoordinatorChecked.ReleaseAllChecks` | src/smartnic_offload/partitioned_param_coordinator.py:360-382 | with nothing registered, releasing everything raises nothing and its closing check passes |
| `CoordinatorFailures.GatherRaises` | src/smartnic_offload/partitioned_param_coordinator.py:384-399 | on any state, reachable or not, a gather raises if and only if a partitioned parameter it asks for is registered already |
| `CoordinatorFailures.ReleaseAllRaises` | src/smartnic_offload/partitioned_param_coordinator.py:360-382 | on any state partitioning everything raises if and only if a listed parameter is registered or in flight, and which of its two checks does |
| `CoordinatorFailures.TraceRaises` | src/smartnic_offload/partitioned_param_coordinator.py:172-213 | on any state the trace checks of a hook on entry, of the first queue loop and of reset_step raise exactly under their own conditions, the last one also when a module comes up more often than it was recorded |
| `CoordinatorTheorems.PromiseKept` | src/smartnic_offload/partitioned_param_coordinator.py:316-341 | a use popped from the queue ahead of time is live until its step is current, whatever is released in between; with a positive reuse distance it is still live then |
| `CoordinatorTheorems.NothingGatheredTwice` | src/smartnic_offload/partitioned_param_coordinator.py:290-343 | with a positive reuse distance a replayed fetch gathers only parameters whose use was not prefetched |
| `CoordinatorTheorems.SurvivesRelease` | src/smartnic_offload/partitioned_param_coordinator.py:415-448 | a parameter prefetched for the coming step survives the release of its only user if and only if the reuse distance is positive (or the parameter is never released at all) |
| `CoordinatorExample.PrefetchedThenFreed` | src/smartnic_offload/partitioned_param_coordinator.py:415-448 | a legal run with reuse distance zero in which a parameter is prefetched for a step, freed by the release just before it, and gathered a second time |
| `CoordinatorTheorems.Accounting` | src/smartnic_offload/partitioned_param_coordinator.py:384-406 | over every run the availability counter is the live size minus the live size at the last reset |
| `CoordinatorTheorems.PrefetchLimits` | src/smartnic_offload/partitioned_param_coordinator.py:316-341 | a prefetch overshoots the live limit and the bucket size by less than one of the parameters it takes |
| `CoordinatorTheorems.MayReleaseExactly` | src/smartnic_offload/partitioned_param_coordinator.py:409-448 | in any reachable replay a module may release exactly those of its parameters that are not persistent, have no later use popped already, and are not used again within the reuse distance |
| `CoordinatorEffects.RecordingReleases` | src/smartnic_offload/partitioned_param_coordinator.py:348-356 | outside a replay, so in all of the first iteration, leaving a module partitions each of its parameters that is not external and that no other module uses, persistent or not |
| `CoordinatorEffects.ReplayReleases` | src/smartnic_offload/partitioned_param_coordinator.py:348-356 | in a replay leaving a module partitions exactly those of its parameters that no other module uses, that are neither external nor persistent, of which no later use has left the queue, and that no module uses again within the reuse distance |
| `CoordinatorTheorems.LookAheadExact` | src/smartnic_offload/partitioned_param_coordinator.py:437-446 | the look-ahead removes exactly the candidates used by a coming module that is reached before the reuse distance is exhausted |
| `CoordinatorTheorems.ScanExact` | src/smartnic_offload/partitioned_param_coordinator.py:316-341 | the prefetch pops entries until the partitioned parameters among them fill a bucket, or would leave as many elements available as are allowed, or none is left, never one entry more, and asks for exactly those parameters |
| `CoordinatorEffects.ScanStopsExactly` | src/smartnic_offload/partitioned_param_coordinator.py:317-341 | when the prefetch stops and what it asks for, in terms of entries, statuses, the bucket size, the counter and the limit |
| `CoordinatorTheorems.TrainingNeverFails` | src/smartnic_offload/partitioned_param_coordinator.py:172-213 | if every iteration enters the modules in the order of the first one, no iteration ever fails and between iterations everything is partitioned |
| `CoordinatorTheorems.FullReplayIsQuiet` | src/smartnic_offload/partitioned_param_coordinator.py:172-177 | a replay that reached the end of its trace has an empty registry, so reset_step cannot raise |
| `CoordinatorTheorems.ComparedParamOrderIsEmpty` | src/smartnic_offload/partitioned_param_coordinator.py:185-196 | when reset_step compares the recorded parameter order across ranks, that order is still empty |
| `CoordinatorRuns.StepKeeps` | src/smartnic_offload/partitioned_param_coordinator.py:234-346 | every allowed hook keeps the run invariant: registry, statuses, users, trace, queue and prefetch promise |
| `CoordinatorRuns.EnterKeeps` | src/smartnic_offload/partitioned_param_coordinator.py:234-346 | a hook call keeps the invariant, and fails if and only if it runs past a completed trace |
| `CoordinatorRuns.ReleaseKeeps` | src/smartnic_offload/partitioned_param_coordinator.py:348-356 | releasing a module that uses its parameters keeps the invariant |
| `CoordinatorRuns.ReleaseSparesPromised` | src/smartnic_offload/partitioned_param_coordinator.py:415-448 | a release never offers a parameter promised to a later step, nor, with a positive reuse distance, one promised to the coming step |
| `CoordinatorRuns.ResetKeeps` | src/smartnic_offload/partitioned_param_coordinator.py:172-213 | reset fails if and only if something is registered; otherwise the next iteration starts from a full queue and the right mode |
| `CoordinatorRuns.ScanCovers` | src/smartnic_offload/partitioned_param_coordinator.py:316-341 | every entry the prefetch pops is live already or asked for; it asks only for partitioned parameters, each once, and counts their size |
| `CoordinatorRuns.FetchedReady` | src/smartnic_offload/partitioned_param_coordinator.py:262-288 | after gather and wait the module's parameters are available, unregistered and used by it, and nothing else was lost |
| `CoordinatorTrace.DiscardExact` | src/smartnic_offload/partitioned_param_coordinator.py:290-314 | the "tracing error" cannot happen: what the first queue loop discards is exactly what was not yet fetched |
| `CoordinatorTrace.RebuildIsTrace` | src/smartnic_offload/partitioned_param_coordinator.py:165-169 | popping each module's own FIFO of step ids recovers the global step of every occurrence, so the rebuilt trace is the recorded one |
| `CoordinatorTrace.MostRecentMeans` | src/smartnic_offload/partitioned_param_coordinator.py:290-343 | the "most recent" dictionary holds, for each parameter, the largest step popped for it |
| `CoordinatorTrace.PopKeeps` | src/smartnic_offload/partitioned_param_coordinator.py:316-341 | popping keeps the queue a suffix of the trace without entries of past steps, and the dictionary equal to what was popped |
| `CoordinatorPool.AllGatherKeeps` | src/smartnic_offload/partitioned_param_coordinator.py:384-399 | gathering never registers twice, keeps the registry invariant and leaves nothing of the set partitioned |
| `CoordinatorPool.FetchWaitKeeps` | src/smartnic_offload/partitioned_param_coordinator.py:269-286 | waiting keeps the registry invariant and loses nothing |
| `CoordinatorPool.LeaveKeeps` | src/smartnic_offload/partitioned_param_coordinator.py:348-356 | leaving a module frees only parameters nobody uses and nobody waits for |
| `CoordinatorPool.ReleaseAllKeeps` | src/smartnic_offload/partitioned_param_coordinator.py:360-382 | with nothing registered, releasing everything partitions every listed parameter and clears its users |
| `Coordinator.PartitionedParameterCoordinator.constructor` | src/smartnic_offload/partitioned_param_coordinator.py:72-105 | starts in the state that satisfies the invariant |
| `Coordinator.PartitionedParameterCoordinator.AllGatherCoalesced` | src/smartnic_offload/partition_parameters.py:1441-1450 | marks each parameter in flight exactly once and issues one gather with the parameters in ascending id order |
| `Coordinator.PartitionedParameterCoordinator.Register` | src/smartnic_offload/partitioned_param_coordinator.py:54-65 | the two registry raises are unreachable (asserted in place); every parameter is bound to the handle |
| `Coordinator.PartitionedParameterCoordinator.AllGatherParams` | src/smartnic_offload/partitioned_param_coordinator.py:384-399 | for any set iteration order: one gather of the partitioned parameters, registered and counted |
| `Coordinator.PartitionedParameterCoordinator.Wait` | src/smartnic_offload/partition_parameters.py:1142-1213 | the first wait makes all parameters of the handle available, later waits change nothing; the in-flight assert holds |
| `Coordinator.PartitionedParameterCoordinator.UseAll` | src/smartnic_offload/partitioned_param_coordinator.py:269-286 | for any iteration order the wait loop ends with all parameters used, popped and available; its status assert holds |
| `Coordinator.PartitionedParameterCoordinator.DiscardFromQueue` | src/smartnic_offload/partitioned_param_coordinator.py:290-314 | the first queue loop, whose consistency check is asserted in place |
| `Coordinator.PartitionedParameterCoordinator.Prefetch` | src/smartnic_offload/partitioned_param_coordinator.py:316-341 | the second queue loop: what it pops and what it asks for, although it stores a maximum |
| `Coordinator.PartitionedParameterCoordinator.FetchSubModule` | src/smartnic_offload/partitioned_param_coordinator.py:234-346 | a fetch ends in the specified state whatever order its sets are iterated in |
| `Coordinator.PartitionedParameterCoordinator.ReleaseParam` | src/smartnic_offload/partitioned_param_coordinator.py:402-406 | frees an available parameter nobody uses; the assert of free_param holds |
| `Coordinator.PartitionedParameterCoordinator.ReleaseSubModule` | src/smartnic_offload/partitioned_param_coordinator.py:348-356 | the release loop, keeping the invariant |
| `Coordinator.ReleaseCandidates` | src/smartnic_offload/partitioned_param_coordinator.py:415-448 | the candidate set after the prefetch check and the look-ahead loop; its mode check cannot fail |
| `Coordinator.PartitionedParameterCoordinator.ReleaseAndResetAll` | src/smartnic_offload/partitioned_param_coordinator.py:360-382 | raises if and only if a listed parameter is registered; otherwise all are partitioned and the closing check passes |
| `Coordinator.BuildParamTrace` | src/smartnic_offload/partitioned_param_coordinator.py:152-169 | the loop that pops the FIFOs builds the specified trace and never pops an empty one |
| `Coordinator.PartitionedParameterCoordinator.ResetStep` | src/smartnic_offload/partitioned_param_coordinator.py:172-213 | raises if and only if the registry is not empty; otherwise the next iteration's state |
| `Coordinator.PartitionedParameterCoordinator.TracePrologue` | src/smartnic_offload/partitioned_param_coordinator.py:130-140 | gives the trace up if and only if another module than recorded comes; invalidating twice cannot happen |
| `Coordinator.PartitionedParameterCoordinator.RecordSubModule` | src/smartnic_offload/partitioned_param_coordinator.py:142-150 | appends the module and its step id |
| `Coordinator.PartitionedParameterCoordinator.PreSubModule` | src/smartnic_offload/parameter_offload.py:462-490 | the pre-forward and pre-backward order: prologue, record, fetch |
| `Coordinator.PartitionedParameterCoordinator.OnEvent` | src/smartnic_offload/partitioned_param_coordinator.py:130-406 | every hook, run on an object in a reachable state, moves it as specified or fails as specified |
| `Coordinator.RunAll` | src/smartnic_offload/partitioned_param_coordinator.py:130-406 | one object run through a legal list of hooks goes through exactly the specified states and fails exactly where the specification does |
| `Coordinator.RanksAgree` | src/smartnic_offload/partitioned_param_coordinator.py:384-399 | two coordinators run through the same legal list of entries, releases and iteration ends fail at the same event with the same error or not at all, and after every event are in equal states with the same gathers of the same parameters in the same ascending order, however each visits its sets |
| `Shards.ShardSizesAgree` | src/smartnic_offload/partition_parameters.py:1614-1619 | aligned size over world, ceiling division and the single-parameter buffer size agree; padding is less than one element per rank |
| `Shards.PartitionParam` | src/smartnic_offload/partition_parameters.py:1657-1700 | the shard begins with the rank's slice of the tensor, whatever the rest of the new storage holds |
| `Shards.PackShards` | src/smartnic_offload/partition_parameters.py:1500-1506 | the wire form of a rank's shards |
| `Shards.WireSlice` | src/smartnic_offload/partition_parameters.py:1488-1498 | where slice r of tensor i lies in the rank-major buffer of every list of tensors and world size |
| `Shards.CoalescedWait` | src/smartnic_offload/partition_parameters.py:1188-1213 | the coalesced reassembly restores every original tensor, whatever the padding |
| `Shards.SingleGather` | src/smartnic_offload/partition_parameters.py:1462-1487 | for a single parameter a prefix of the gathered buffer is the tensor |
| `Shards.GatherOne` | src/smartnic_offload/partition_parameters.py:1462-1487 | the narrow path restores the tensor, so it agrees with the coalesced one |
| `Shards.Replicate` | src/smartnic_offload/partition_parameters.py:1843-1858 | copying slices to their places in new storage rebuilds one tensor |
| `Shards.AllGatherParams` | src/smartnic_offload/partition_parameters.py:1811-1859 | the synchronous path restores every tensor too |
| `Blocks.SlicesTile` | src/smartnic_offload/zero_optimizer.py:342-346 | the slices of all ranks, end to end, are the tensor |
| `ReduceScatter.ScatterInput` | src/smartnic_offload/zero_optimizer.py:335-364 | the submitted buffer carries every rank's divided slices for any sizes and padding; with one evenly divisible tensor it is that tensor, divided in place |
| `ReduceScatter.OwnShards` | src/smartnic_offload/zero_optimizer.py:348-349 | the single-tensor shortcut agrees with the padded path |
| `ReduceScatter.ReceivesSlice` | src/smartnic_offload/zero_optimizer.py:335-364 | rank r receives, for each tensor, exactly slice r of the average over ranks |
| `ReduceScatter.ReceivedTile` | src/smartnic_offload/zero_optimizer.py:335-364 | the slices received by all ranks concatenate to the full average |
| `ReduceScatter.NarrowOutput` | src/smartnic_offload/zero_optimizer.py:490-495 | the returned views are the slices, without padding |
| `ReduceScatter.SumDivided` | src/smartnic_offload/zero_optimizer.py:364-364 | dividing before the sum equals averaging after it |
| `SubGroups.CreateSubGroups` | src/smartnic_offload/zero_optimizer.py:781-799 | sub-groups keep all parameters in order; each but the last reaches the limit with its last parameter and not before |
| `SubGroups.CreatePartitions` | src/smartnic_offload/zero_optimizer.py:839-854 | no parameter is lost, repeated or reordered; the sub-groups of a parameter group stand together, carry its index and belong to no other; a group within the limit is one sub-group, any other is cut exactly where a piece reaches the limit, only the last piece staying below |
| `SubGroups.SetGradPositions` | src/smartnic_offload/zero_optimizer.py:977-990 | sub-group, offset and size of every shard |
| `SubGroups.GradOffsets` | src/smartnic_offload/zero_optimizer.py:962-970 | offset of every shard in the global gradient buffer |
| `SubGroups.OffsetsAgree` | src/smartnic_offload/zero_optimizer.py:962-990 | global offset = start of the sub-group's buffer + offset in the sub-group, and every shard ends inside its sub-group |
| `SubGroups.MoveToFlatBuffer` | src/smartnic_offload/zero_optimizer.py:803-813 | the shards fill their range in order and nothing else changes |
| `SubGroups.FillGroupBuffer` | src/smartnic_offload/zero_optimizer.py:857-866 | the sub-groups tile the parameter group's buffer |
| `SubGroups.GroupBuffers` | src/smartnic_offload/zero_optimizer.py:815-837 | only non-empty groups get a buffer |
| `SubGroups.EveryGroupFindsItsBuffer` | src/smartnic_offload/zero_optimizer.py:857-862 | the lookup by group index succeeds and finds the group's own buffer for all groups if and only if no group is empty |
| `ShardedStep.OptimizerStep` | src/smartnic_offload/zero_optimizer.py:886-906 | the in-place step on one flat buffer applies the rule once to every element: its weight, gradient and state before give its weight and state after |
| `ShardedStep.CopyDown` | src/smartnic_offload/zero_optimizer.py:1346-1350 | every element of the fp16 buffer becomes the rounded fp32 element |
| `ShardedStep.StepMatches` | src/smartnic_offload/zero_optimizer.py:1384-1405 | a rank stepping with its slices of the averages carries its slices of the whole step |
| `ShardedStep.GatherMatches` | src/smartnic_offload/partition_parameters.py:1441-1528 | gathering the fp16 shards gives the whole fp16 parameters |
| `ShardedStep.IterationMatches` | src/smartnic_offload/zero_optimizer.py:1373-1409 | ranks that step with what arrived for gradients computed from any weights carry the unpartitioned reference stepped with the averages of those gradients |
| `ShardedStep.ConstructedMatches` | src/smartnic_offload/zero_optimizer.py:876-946 | construction, including the step with zero gradients, matches the unpartitioned start |
| `ShardedStep.ShardedEqualsFull` | src/smartnic_offload/zero_optimizer.py:1373-1409 | for any element-wise optimizer, rounding, model, sizes, sub-groups, buckets and padding: at every iteration the ranks get through, the gathered parameters are those of unpartitioned training with averaged gradients |
| `TrainingElements.StartElement` | src/smartnic_offload/zero_optimizer.py:917-940 | every weight and every piece of optimizer state starts with one step of the rule with gradient zero from the initial state; the fp16 weights stay |
| `TrainingElements.NextElement` | src/smartnic_offload/zero_optimizer.py:886-906 | from one iteration of the reference to the next the rule is applied once to every element, with the average of the ranks' gradients for the fp16 weights of the iteration, and the result is rounded |
| `TrainingElements.GatheredElement` | src/smartnic_offload/zero_optimizer.py:1373-1409 | so every element the ranks gather after an iteration is the rounded result of the rule for its own weight, state and average gradient |
| `TrainingElements.RankElement` | src/smartnic_offload/zero_optimizer.py:886-906 | a rank's step applies the rule once to every element of its flat buffers and rounds the result |
| `ShardedRuns.ShardedRunExists` | src/smartnic_offload/zero_optimizer.py:335-364 | for every model there are gradient buffers, delivered by reduce-scatters of the ranks' gradients, with which all ranks get through any number of iterations |
| `DelayedSharding.DelayedShardedTraining` | src/smartnic_offload/zero_optimizer.py:1422-1444 | delayed training on shards: each rank with its own interleaving and its own worker, whose optimizer starts empty, has one group and uses the default options: at the start of iteration k the ranks gather exactly the parameters of unpartitioned training one step behind, by the workers' rule from its initial state |
| `DelayedSharding.RanksMatch` | src/smartnic_offload/zero_optimizer.py:526-557 | every rank's fp32 weights, worker's optimizer state and fp16 weights are its slices of the delayed reference, whatever state both start from |
| `DelayedSharding.DeliveriesExist` | src/smartnic_offload/zero_optimizer.py:335-364 | for every model there are gradient deliveries for any number of delayed iterations from the worker's own start |
| `DelayedSharding.StartsAgree` | src/smartnic_offload/zero_optimizer.py:917-940 | delayed training starts where synchronous training does if and only if the step with zero gradients, taken by the main thread's optimizer, leaves every optimizer state as a fresh worker's |
| `TrainingElements.DelayedElement` | src/smartnic_offload/zero_optimizer.py:548-557 | the delayed reference element by element: the first iteration only rounds, each later one applies the worker's rule once, with the average gradient for the fp16 weights of two starts ago |
| `DelayedSharding.DelayedGoesOnIff` | src/smartnic_offload/zero_optimizer.py:548-557 | all ranks can reach every iteration if and only if every sub-group belongs to the first parameter group |
| `GradientPipeline.GradientPipeline.AddGradToBucket` | src/smartnic_offload/zero_optimizer.py:1128-1144 | copies behind the gradients before it if it fits, otherwise leaves the gradient where it is |
| `GradientPipeline.GradientPipeline.AvgScatterGrads` | src/smartnic_offload/zero_optimizer.py:1147-1176 | submits exactly the bucket in ascending id order, read from the bucket buffer or a private copy, and writing to the first shard's place if direct output is on and offsets and sizes make one run, otherwise to new storage |
| `GradientPipeline.GradientPipeline.PartitionGrad` | src/smartnic_offload/zero_optimizer.py:1183-1238 | one parameter: skip, keep, copy or add, then copy to fp32, all in place |
| `GradientPipeline.GradientPipeline.PartitionGrads` | src/smartnic_offload/zero_optimizer.py:1183-1238 | the loop over the awaited parameters |
| `GradientPipeline.GradientPipeline.FlushPendingRs` | src/smartnic_offload/zero_optimizer.py:1250-1271 | waits for the pending reduce-scatter and takes its slices |
| `GradientPipeline.GradientPipeline.ReduceAndPartition` | src/smartnic_offload/zero_optimizer.py:1080-1124 | the previous reduce-scatter is taken before this one is submitted; keeps the invariant (also the synchronous form) |
| `GradientPipeline.GradientPipeline.GradientReady` | src/smartnic_offload/zero_optimizer.py:1063-1075 | a gradient hook keeps the invariant and moves the bookkeeping as specified |
| `GradientPipeline.GradientPipeline.Epilogue` | src/smartnic_offload/zero_optimizer.py:1010-1030 | reduces the last bucket, then counts the micro step |
| `GradientPipeline.GradientPipeline.TakeLast` | src/smartnic_offload/zero_optimizer.py:1273-1275 | the last slices land if nothing old is added to them |
| `GradientTheorems.PassExact` | src/smartnic_offload/zero_optimizer.py:1080-1124 | after any finished pass the reduce-scatters carried every fired gradient exactly once and nothing else, each slice is in its place of this iteration's fp32 buffer, and all else is untouched, for every completion time |
| `GradientOutputs.PassElement` | src/smartnic_offload/zero_optimizer.py:1183-1238 | after any finished pass every element of a rank's place for a fired parameter is the rank's part of the gradient divided by the number of ranks plus what the others contribute |
| `GradientHeld.PassLeaves` | src/smartnic_offload/zero_optimizer.py:1209-1235 | after any finished pass the flat fp16 gradient buffer, which the next pass starts with, holds every fired parameter's slice at its place and elsewhere what it held before |
| `GradientTheorems.ReducedOnce` | src/smartnic_offload/zero_optimizer.py:1063-1075 | at every moment of a pass the gradients that have fired are those in the bucket and, once each, those submitted |
| `GradientTheorems.DeferredEqualsSynchronous` | src/baseline/zero_optimizer.py:754-790 | the deferred pipeline leaves the same fp32 gradient buffer as the synchronous baseline, for any hook orders |
| `GradientTheorems.SynchronousKeeps` | src/baseline/zero_optimizer.py:754-790 | the synchronous form keeps the same invariant without any side condition on completion |
| `GradientTheorems.StepKeeps` | src/smartnic_offload/zero_optimizer.py:1080-1275 | every allowed event of a pass keeps the invariant |
| `GradientTheorems.OverwriteExact` | src/smartnic_offload/zero_optimizer.py:1138-1139 | an unread single-tensor view survives adding a parameter, whatever its gradient, if and only if the copy does not write where the view reads |
| `GradientExamples.ViewOverwritten` | src/smartnic_offload/zero_optimizer.py:1138-1139 | a pass of two hooks in which the second gradient is copied over the view of the first before it is read, and 6 instead of 1 reaches the fp32 buffer |
| `GradientViews.OverwritesIffClash` | src/smartnic_offload/zero_optimizer.py:343-349 | some pass overwrites an unread view if and only if two parameters of the model fit the bucket buffer singly but not together, the first evenly divisible by the number of ranks |
| `GradientViews.HooksAllowed` | src/smartnic_offload/zero_optimizer.py:1128-1144 | in a model without such a pair every hook that fires once, during backward, for a parameter of the model is allowed in every pass |
| `GradientTheorems.TakingIsExact` | src/smartnic_offload/zero_optimizer.py:1209-1222 | taking a slice gives the synchronous value if and only if it is the first micro step, the output was written in place, or the place held zeros |
| `GradientExamples.LastBucketAdds` | src/smartnic_offload/zero_optimizer.py:1209-1222 | a pass whose last, not contiguous bucket is flushed after the micro step was counted, so that 5 left from before is added and 6 instead of 1 reaches the fp32 buffer |
| `GradientAdds.LastFlushExact` | src/smartnic_offload/zero_optimizer.py:1250-1275 | in any pass, waiting for what is pending leaves every one of its parameters its exact slice if and only if nothing old is added to any of them |
| `GradientOld.OldValuesDecide` | src/smartnic_offload/zero_optimizer.py:1209-1222 | in every pass the place of a gradient that was not taken yet holds what it held before the pass; so, once the micro step is counted, nothing old is added if and only if the last bucket is reduced in place or the buffer held zeros at all its places before the pass |
| `GradientOld.LastFlushFromStart` | src/smartnic_offload/zero_optimizer.py:1273-1275 | the last flush of a pass is exact if and only if its bucket is reduced in place or lands on zeros of the buffer the pass started with |
| `GradientOutputs.OutputsOverPasses` | src/smartnic_offload/zero_optimizer.py:1158-1164 | in every pass whatever is pending lists its bucket in id order and writes straight into the flat gradient buffer if and only if direct output is on and its shards stand there end to end |
| `GradientOutputs.LastFlushBySizes` | src/smartnic_offload/zero_optimizer.py:1209-1222 | so the last flush of a pass is exact if and only if its shards stand end to end in a buffer written directly, or the buffer held zeros at each of their places before the pass |
| `GradientOld.ZerosAllowed` | src/smartnic_offload/zero_optimizer.py:968 | a pass that starts with a gradient buffer of zeros, as it is allocated, adds to no old values |
| `GradientAdds.AddsIffScattered` | src/smartnic_offload/zero_optimizer.py:1158-1164 | some pass adds to old values if and only if some parameters fit one bucket in some hook order, one of them has an element on this rank, and direct output is off or their shards are not one run of the flat buffer, as offsets and sizes tell |
| `GradientAdds.TakesAllowed` | src/smartnic_offload/zero_optimizer.py:1250-1275 | in all other models every flush of every pass is allowed |
| `GradientOrders.AnyOrder` | src/smartnic_offload/zero_optimizer.py:1059-1075 | in a model without clashing parameters a pass goes through in any hook order, and finishes with the gradients of all its hooks if and only if its last bucket is reduced in place or lands on zeros |
| `GradientOrders.EveryOrderFinishes` | src/smartnic_offload/zero_optimizer.py:1059-1075 | without clashing parameters, and without the means to add to old values or on a buffer of zeros, every hook order finishes |
| `GradientTheorems.ContiguityExact` | src/smartnic_offload/zero_optimizer.py:1158-1164 | a bucket that passes the contiguity test has every slice in its place if and only if its shards lie in bucket order |
| `GradientTheorems.ContiguityFooled` | src/smartnic_offload/zero_optimizer.py:1158-1164 | a concrete bucket passes the test although its shards are shuffled |
| `GradientRuns.ContiguousIsAligned` | src/smartnic_offload/zero_optimizer.py:1158-1164 | with shards in bucket order the test implies a gap-free run |
| `GradientRuns.CompleteKeeps` | src/smartnic_offload/zero_optimizer.py:427-435 | completion at any moment keeps the invariant |
| `GradientRuns.FlushKeeps` | src/smartnic_offload/zero_optimizer.py:1250-1271 | taking the pending slices moves exactly its parameters to the landed ones |
| `GradientTheorems.HookBounds` | src/smartnic_offload/zero_optimizer.py:1063-1075 | after every hook the bucket is within its size or its last gradient is all of it |
| `GradientTheorems.CopiesDisjoint` | src/smartnic_offload/zero_optimizer.py:1134-1139 | copied gradients occupy disjoint ranges inside the flat buffer |
| `GradientDelivery.ExpectedIsSlice` | src/smartnic_offload/zero_optimizer.py:335-364 | with the other ranks' gradients for the pipeline's parameter, what a rank's pipeline owes a tensor is its slice of the average |
| `GradientDelivery.PassDelivers` | src/smartnic_offload/zero_optimizer.py:1232-1235 | after any finished pass of a rank through its deferred pipeline, with any hook order and completion times, the flat gradient buffers of all sub-groups hold what the sharded step asks for |
| `GradientDelivery.AnyOrderIsDone` | src/smartnic_offload/zero_optimizer.py:1059-1075 | in a model without clashing parameters, without the means to add to old values or on a buffer of zeros, that is so for every hook order, without any condition on the events |
| `GradientDelivery.WholeIteration` | src/smartnic_offload/zero_optimizer.py:1373-1409 | one whole iteration: ranks that gather, drive their own passes and step with what the passes left carry the unpartitioned reference stepped with the averages of the gradients |
| `GradientPasses.PassesExist` | src/smartnic_offload/zero_optimizer.py:1080-1275 | for every model and any gradients there are pipelines for all ranks and finished passes through them that serve the iteration |
| `DelayedUpdate.NextKeeps` | src/smartnic_offload/zero_optimizer.py:526-557 | every atomic action of main thread or worker keeps the protocol invariant |
| `DelayedUpdate.Isolation` | src/smartnic_offload/zero_optimizer.py:1422-1444 | in every interleaving: at most one step under way, its buffer is never the one backward writes, and fp32 weights are not read meanwhile |
| `DelayedUpdate.IterationStart` | src/smartnic_offload/run_zero.py:872-910 | whatever the interleaving, iteration k starts with all gradients but the last two applied once and in order, computes with weights one step behind, and the last gradient waits in the other buffer |
| `DelayedUpdate.OneStepBehind` | src/smartnic_offload/zero_optimizer.py:526-557 | for any three interleavings that reach the starts of iterations k, k + 1 and k + 2: the last fp32 weights are the second ones updated once with the gradients of the first fp16 weights |
| `DelayedUpdate.AfterTraining` | src/smartnic_offload/zero_optimizer.py:1422-1444 | when training ends exactly the last gradient was never applied |
| `DelayedUpdate.NeverStuck` | src/smartnic_offload/zero_optimizer.py:1432-1437 | deadlock, exactly: in a reachable state nothing can happen if and only if training is over or the main thread waits for the reply of a worker that died, and a worker dies only of a sub-group from a second parameter group |
| `DelayedUpdate.GoesOnIffOneGroup` | src/smartnic_offload/zero_optimizer.py:548-557 | the start of every iteration can be reached, and no run gets stuck, if and only if all sub-groups belong to the first parameter group; otherwise not even the third iteration starts, and some run ends with the main thread waiting |
| `DelayedUpdate.WorkShrinks` | src/smartnic_offload/run_zero.py:872-910 | however the two sides are scheduled, with a worker that may die, an iteration has only so many events: it ends or gets stuck |
| `FlagPool.PowerTest` | src/smartnic_offload/gpu_flag_pool.py:71-73 | the constructor's bit test accepts exactly the powers of two |
| `FlagPool.MaskIsModulo` | src/smartnic_offload/gpu_flag_pool.py:121-122 | masking with a power of two minus one is the remainder |
| `FlagPool.NewPool` | src/smartnic_offload/gpu_flag_pool.py:71-88 | a pool is created if and only if the size is a power of two |
| `FlagPool.GpuFlagPool.Acquire` | src/smartnic_offload/gpu_flag_pool.py:110-131 | the k-th acquire returns slot k mod size and generation k div size + 1, or overflows at 2^30 having moved on |
| `FlagPool.GpuFlagPool.Reset` | src/smartnic_offload/gpu_flag_pool.py:133-145 | starts over |
| `FlagPool.WaitsAreExact` | src/smartnic_offload/gpu_flag_pool.py:110-131 | if a slot is reused only after its request was consumed, a wait passes if and only if its own request completed, for any completion order |
| `FlagPool.NeglectLoses` | src/smartnic_offload/gpu_flag_pool.py:28-33 | whenever that rule is about to be broken some continuation loses a request |
| `FlagPool.LostForever` | src/smartnic_offload/gpu_flag_pool.py:110-131 | a lost request never passes again |
| `Codec.LayoutsOk` | src/smartnic_offload/comch_mpi/common/comch_mpi_common.h:72-192 | in all message types lengths follow their pointers and no two parts share a header word |
| `Codec.PackedLength` | src/smartnic_offload/comch_mpi/common/comch_mpi_common.h:195-233 | header size plus all lengths, wrapping at 64 bits |
| `Codec.Pack` | src/smartnic_offload/comch_mpi/common/comch_mpi_common.h:239-383 | if the message fits, exactly its wire form and length; otherwise nothing is written |
| `Codec.Unpack` | src/smartnic_offload/comch_mpi/common/comch_mpi_common.h:386-524 | for arbitrary bytes: which header words change, and exactly when the length is rejected |
| `Codec.RoundTrip` | src/smartnic_offload/comch_mpi/common/comch_mpi_common.h:386-524 | unpacking what was packed recovers the header and every part byte for byte, with optional parts in any combination; any shorter length is rejected |
| `CodecLayout.BytesOnTheWire` | src/smartnic_offload/comch_mpi/common/comch_mpi_common.h:239-383 | the bytes of a message: the header words in order, lowest byte first, then each part behind the parts before it |
| `CodecLayout.TablesDescribeStructs` | src/smartnic_offload/comch_mpi/common/comch_mpi_common.h:72-192 | the tables by which messages are packed and unpacked name exactly the addresses and lengths among the members of the message structs, and the header is one word longer than the longest struct |
| `Codec.WordRoundTrip` | src/smartnic_offload/comch_mpi/common/comch_mpi_common.h:247-249 | a 64-bit word survives being copied as bytes |
| `Codec.WrappedLengthFools` | src/smartnic_offload/comch_mpi/common/comch_mpi_common.h:518-521 | without bounded lengths the length check can be passed by a sum that wraps |
| `CpuCache.PinnedCopy.EnsurePinned` | src/smartnic_offload/parameter_offload.py:419-459 | reuses the buffer in use, or if there is none the kept one, if it has the right size; otherwise makes and keeps a new one |
| `CpuCache.PinnedCopy.Save` | src/smartnic_offload/parameter_offload.py:511-520 | the copy equals the full parameter |
| `CpuCache.PinnedCopy.Retire` | src/smartnic_offload/parameter_offload.py:568-579 | the copy is dropped and its buffer kept |
| `CpuCache.CopiesAgree` | src/smartnic_offload/parameter_offload.py:419-584 | in every reachable state a CPU copy, and every available parameter whichever way it was gathered, equals the gather of the ranks' current shards, and no gather served from copies finds one missing |
| `CpuCacheEffects.HooksMoveCopies` | src/smartnic_offload/parameter_offload.py:511-579 | in every run: after forward exactly what a module gives up is copied, with its value; after backward exactly those copies are dropped; partitioning everything drops all; no other hook touches one |
| `CpuCacheEffects.EntriesServeCopies` | src/smartnic_offload/partition_parameters.py:1453-1458 | a gather issued on entry of a module is served from copies if and only if every parameter it lists has one |
| `CpuCache.FullIsParameter` | src/smartnic_offload/partition_parameters.py:1462-1487 | that gather is the parameter the shards were cut from |
| `CpuCache.RewriteFindsNone` | src/smartnic_offload/partitioned_param_coordinator.py:360-378 | shards are rewritten only while there is no copy and no full parameter |
| `CpuCache.HookKeepsCache` | src/smartnic_offload/partition_parameters.py:1453-1458 | every hook keeps the cache invariant |

## Left out

- GradientTheorems.DeferredEqualsSynchronous: asks of every event that no unread view is overwritten and that the last slices are added to nothing, because the code does not promise more: `OverwritesIffClash` and `AddsIffScattered` say exactly which models can break each, `HooksAllowed` and `TakesAllowed` that no other model can, `LastFlushBySizes` which passes break the second, and `ViewOverwritten` and `LastBucketAdds` are two that do.
- GradientPipeline.GradientPipeline.CompleteCollective: stands for the collective itself; padding it writes is a parameter.
- Codec.Pack: asks that the lengths do not add up past 2^64, which parts that are in memory cannot do.
- Shards.CoalescedWait: asks for parameters of at least one element, because the code concatenates a list of slices that must not be empty.
- CUDA streams, events, pollers, profiling ranges, memory pinning and the RDMA, UCX, MPI and NCCL calls.
- The NCCL variant of reduce-scatter and the fp32 communication type: they copy more and share less.
- The queue of reduce events, which only limits how far streams run ahead.
- Autograd hook plumbing, external parameter discovery, and module construction.
- Re-partitioning an updated parameter that already has a shard: the code assigns an undefined local there.
- `_allgather_params_coalesced`, which waits for the first of several handles only and depends on library code.
- Synchronous gathers outside the coordinator: they bypass its counter and registry.
- Floating-point rounding, Adam's formulas, and gradient accumulation over several micro steps.
- Shape, device and data-type checks of CPU copies beyond their size.
- Statistics, data sets, command line, logging.
