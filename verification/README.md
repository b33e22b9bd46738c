# Verified core of COCCL

A Dafny model of the parts of COCCL (NCCL 2.21.5 with compression hooks) whose correctness rests on
protocols, index arithmetic and in-place bookkeeping, with proofs of what they promise. Nothing here
executes the library. `dafny verify dfyconfig.toml` checks everything.

What is modelled, and in which files:

- **Ring all-reduce as a distributed run** (`RingLayout`, `RingProgram`, `RingMachine`, `RingCorrectness`,
  `RingProgress`, `RingAllReduce`). Every rank runs the program of `runRing`, slice by slice, over bounded FIFOs to
  its neighbours, in any interleaving. Every maximal run ends with every rank holding the reduction of all inputs, for
  every number of ranks from two on, every chunk size, tail and offset, in place or not. A run can deadlock if and only if
  there is work and a FIFO holds no more slices than a chunk has (the library's constants give four against two).
- **The connections under it** (`SimpleFifo`, `SimpleFifoSafety`; `LLFifo`, `LLSafety`, `LLExact`). The credit FIFO
  of the Simple protocol over any sequence of kernels, and the flag lines of the LL protocol over unbounded runs.
- **Host/device work FIFO** (`WorkFifo`, `WorkFifoSafety`). Upload, rolling 32-bit counters, polling, per-channel chains.
- **Proxy operation pool** (`ProxyPool`, `ProxyPoolSafety`, `ProxyBatch`) with its compare-and-swap race and its batches,
  and the **proxy argument lists** (`ProxyArgs`) relinked in place.
- **Topology search** (`TopoLinks`, `TopoGraph`, `TopoRoutes`, `TopoStages`, `TopoOffers`, `TopoSearch`): mutually
  recursive backtracking that charges and restores bandwidth. A graph it keeps is one it was given or one whose
  channels, hop by hop, the node can carry all together. If time is left at the end, no graph it offers that the node
  can carry is better; if the search ends itself, none has more bandwidth (`FindChannels`). What a node can carry is
  defined on the recorded rows and NICs and the bandwidth there was before the search (`TopoRoutes`), what is on offer
  in `TopoOffers`.
- **Double binary tree** (`Dtree`), **ring construction** (`Rings`), **pairwise schedule** (`P2pSchedule`),
  **dissemination barrier** (`Barrier`), **channel packing** (`Packer`), **thread coverage of reduceCopy** (`ReduceCopy`),
  **four-lane byte reductions** (`Swar`), **send/receive step counts** (`P2pSteps`).

Conventions. Concurrent parts are state machines; a step is one load, store or critical section of the source, a run is a
sequence of enabled steps, and theorems quantify over all runs. Fields that only record history for the specification are
named in the doc comment of the state they belong to, and no step reads them. Counters are unbounded numbers; where the
source compares or masks 32-bit values the model looks only at the residues. Constants that differ between builds
(NCCL_STEPS, MAX_OPS_PER_PEER, the LL clean mask, the FIFO depth) are parameters.

Where the code does not do what one would expect:

- The LL reader *can* take a line left by an earlier step, whatever the cleaning period: over steps without lines the
  reader runs ahead of the sender without bound. `StaleIffClash` gives the exact condition on a schedule,
  `EmptyStepsFoolTheReader` an instance, `SafeSchedule` and `ProtocolIsSafe` the schedules that cannot clash; with the
  library's constants a clash takes more than 2^31 - 2 steps without lines in a row.
- The ring all-reduce needs room for *more than* one chunk: with exactly one chunk of room some interleaving leaves every
  rank waiting to send (`StuckWithoutRoom`, `DeadlockIff`).
- `ncclLocalOpAppend` fails with an internal error when all MAX_OPS_PER_PEER pending operations have one opCount, and only
  then (`CutBetweenOpCounts`); the pool keeps its invariant in that case, and the rank stays in the state `Failed`.
- Of two NVLS graphs each can be better than the other: exactly if one has more channels and the other more bandwidth
  (`NvlsBothBetterIff`). For all other patterns the comparison is a strict order.

## Model

| member | source | states |
|---|---|---|
| RingLayout.GenericOpSlices | src/device/prims_simple.h:194-301 | the slice loop cuts a chunk (also an empty or negative one) into exactly SlicePerChunk slices at the offsets and with the sizes of the layout |
| RingLayout.TailReachesEnd | src/enqueue.cc:225-232 | the shortened chunks of a tail loop still cover everything that is left of the channel's share |
| RingLayout.LastChunkFits | src/enqueue.cc:213-232 | the tail chunk is aligned, not longer than the equal share and one alignment, and not longer than a whole chunk |
| RingLayout.ChunksAligned | src/enqueue.cc:225-232 | every chunk of every loop starts at a multiple of the alignment |
| RingLayout.SlicesAligned | src/device/prims_simple.h:195-196 | a slice with elements starts at a multiple of 16 within its chunk |
| RingLayout.SliceFitsSlot | src/device/prims_simple.h:194-231 | no slice of any chunk, tail or not, is longer than its part of the FIFO |
| RingLayout.SlotsPartition | src/device/all_reduce.h:30-79 | loop, chunk and slice slots partition the share: an element is in a slot if and only if that is where it is located |
| RingProgram.ModRanksIsChunkAt | src/device/all_reduce.h:36-38 | every use of modRanks names the chunk of one uniform formula |
| RingProgram.RunRing | src/device/all_reduce.h:30-79 | the loops issue, in order, exactly the calls of the specification with kind, offset and count |
| RingAllReduce.MachineRunsTheCalls | src/device/all_reduce.h:40-78 | what the machine moves at a position is the slice of the call runRing issues there |
| RingAllReduce.LayoutIsValid | src/device/all_reduce.h:30-79 | the layout the machine works on divides the share without overlap or gap, for every shape |
| RingCorrectness.AlwaysAgree | src/device/all_reduce.h:40-78 | in every reachable state sender and receiver of a slice agree on its size |
| RingCorrectness.SourceUntouched | src/device/all_reduce.h:47-62 | data still to be read has not been overwritten, also in place |
| RingCorrectness.ProducedIs | src/device/all_reduce.h:40-78 | every step produces exactly the partial or final reduction its position calls for |
| RingCorrectness.RunInv | src/device/all_reduce.h:30-79 | every state of every interleaving satisfies the invariant on positions, FIFOs and buffers |
| RingProgress.NotStuck | src/device/prims_simple.h:127-135 | with room for more than a chunk no reachable state is stuck before all ranks are done |
| RingProgress.StuckWithoutRoom | src/device/prims_simple.h:127-135 | with room for at most a chunk some run leaves every rank waiting |
| RingProgress.RunsAreBounded | src/device/all_reduce.h:30-79 | no run is longer than all slices of all calls of all ranks |
| RingAllReduce.FinalIsReduce | src/device/prims_simple.h:269-274 | for an associative and commutative operation, the value stored is postOp, once, of the reduction over all ranks of preOp of their inputs, whatever chunk it is in |
| RingAllReduce.StoredAtEnd | src/device/all_reduce.h:57-78 | without any law: a finished rank holds the same final value as every other, built from preOp of every input along the ring, and nothing outside the share changed |
| RingAllReduce.EveryMaximalRunReduces | src/device/all_reduce.h:30-79 | every maximal run, whatever the interleaving, leaves every rank finished, its FIFO empty and its buffer holding postOp of the reduction of preOp of all ranks' inputs |
| RingAllReduce.DeadlockIff | src/device/all_reduce.h:40-78 | some run deadlocks if and only if there is work and a FIFO holds no more slices than a chunk |
| RingAllReduce.HostStepCount | src/enqueue.cc:187-191 | the step count the host gives the proxy is the number of steps each connection makes in every finished run, both directions |
| SimpleFifo.NoStraddle | src/device/prims_simple.h:449-459 | after rounding up, no slice of any kernel runs over the end of the slot ring |
| SimpleFifoSafety.StoreIsSafe | src/device/prims_simple.h:122-183 | the sender never writes a slot that holds a slice not yet received |
| SimpleFifoSafety.ReceivesOnlyPosted | src/device/prims_simple.h:122-135 | the receiver never takes a slice that is not posted |
| SimpleFifoSafety.RunInv | src/device/prims_simple.h:122-301 | the connection invariant holds in every state of every run of any sequence of kernels |
| SimpleFifoSafety.DeliveredInOrder | src/device/prims_simple.h:194-301 | in every run the receiver has got exactly the first slices sent, unchanged and in order |
| SimpleFifoSafety.StepsAgree | src/device/prims_simple.h:494-509 | both ends have the same step at the same slice and save the same step after the same kernels |
| SimpleFifoSafety.NeverBlocks | src/device/prims_simple.h:122-183 | until both ends have run all kernels, one of them can act |
| SimpleFifoSafety.IsBoundedQueue | src/device/prims_simple.h:127-135 | within a kernel the credit checks are those of a queue of NCCL_STEPS / StepPerSlice slices |
| LLFifo.CleanedWithinPeriod | src/device/prims_ll.h:88-95 | every slot is cleaned once in every period |
| LLExact.CleanMask | src/include/device.h:64-68 | the clean mask selects exactly the last eight steps of every 2^31 |
| LLSafety.AcceptsOnlyFresh | src/device/prims_ll.h:97-108 | without a clash in the schedule, the reader takes a line only after it was stored for that step |
| LLSafety.RunInv | src/device/prims_ll.h:64-108 | every state of every run of a clash-free schedule satisfies the invariant on lines, flags and credits |
| LLSafety.CreditIff | src/device/prims_ll.h:64-72 | in every reachable state of a clash-free schedule, after a poll the sender gets a credit if and only if it has none and is less than NCCL_STEPS steps ahead of the reader |
| LLSafety.SenderGoesIff | src/device/prims_ll.h:64-95 | the sender can go on, at most after a poll, if and only if it has a credit or is less than NCCL_STEPS steps ahead |
| LLSafety.NeverBlocks | src/device/prims_ll.h:64-108 | no reachable state of a clash-free schedule is stuck: the reader can always go on where the sender has been, and one of the two always can |
| LLSafety.DeliveredInOrder | src/device/prims_ll.h:226-294 | every step that both ends have finished was received exactly as it was sent, over runs of any length |
| LLExact.StaleIffClash | src/device/prims_ll.h:39-44 | some run takes a stale line if and only if the schedule has a clash, a condition on flag range, period and which steps carry lines |
| LLExact.ClashIsReached | src/device/prims_ll.h:97-108 | every clash of a schedule is reached by an actual run that ends with the reader taking the stale line |
| LLExact.SafeSchedule | src/device/prims_ll.h:88-95 | cleaning period plus longest stretch of empty steps below the flag range excludes every clash |
| LLExact.ProtocolIsSafe | src/include/device.h:64-68 | with 8 slots, 32-bit flags and the clean mask, a schedule with no more than 2^31 - 2 empty steps in a row has no clash |
| LLExact.EmptyStepsFoolTheReader | src/device/prims_ll.h:97-108 | two steps a whole flag range apart in the same slot, with only empty steps between, clash: cleaning cannot help, since the reader is there before the sender |
| WorkFifo.UploadWork | src/enqueue.cc:1068-1095 | the loops write exactly the slots of the specification: first works at head plus block number, the rest chained, the last one to be acknowledged |
| WorkFifo.PollRound | src/enqueue.cc:1011-1032 | one polling round computes the minimum over busy channels and brings quiesced channels up to it |
| WorkFifoSafety.RollingLessIsLess | src/enqueue.cc:991-994 | the rolling comparison is the true one for counters less than half the range apart |
| WorkFifoSafety.AckdAllIsLeast | src/enqueue.cc:1012-1018 | ackdAll is the least counter of the busy channels, or what was sent if there is none smaller |
| WorkFifoSafety.SlotSurvivesWrap | src/enqueue.cc:1052-1088 | masking a wrapped counter gives the slot of the true counter |
| WorkFifoSafety.HeadFits | src/enqueue.cc:1061-1067 | the first works of a plan never cross the end of the ring; the head moves on if and only if they would, and then to the next start of the ring, less than one ring away |
| WorkFifoSafety.WorkIxInRange | src/enqueue.cc:1072-1092 | the works of a plan use the slot numbers from head to head plus their count |
| WorkFifoSafety.WorkIxDistinct | src/enqueue.cc:1072-1092 | no two works of a plan share a slot number |
| WorkFifoSafety.NoOverwrite | src/enqueue.cc:1001-1038 | the slot about to be written holds no work that a channel has still to load |
| WorkFifoSafety.RunInv | src/enqueue.cc:1001-1103 | host counters, acknowledgements, slot contents, launches and chains stay consistent in every state of every run |
| WorkFifoSafety.NeverOverwritten | src/enqueue.cc:1040-1103 | in every run, through wraparound and boundary skips, a write leaves every unloaded work as it was queued |
| WorkFifoSafety.WorksRunInOrder | src/device/common.h:181-212 | in every run a channel has loaded a prefix of the works queued for it, and all of them once it rests with nothing launched |
| WorkFifoSafety.AddressesInRange | src/device/common.h:167-205 | the address a block computes from its launch or from workNext always lies in the ring |
| WorkFifoSafety.IdleChannelIsQuiesced | src/enqueue.cc:1012-1018 | a channel reads as quiesced exactly when it rests with nothing launched |
| WorkFifoSafety.QuiescedMakesRoom | src/enqueue.cc:1020-1037 | a polling round that finds every channel quiesced makes room for any plan, so the host does not wait for ever |
| WorkFifoSafety.WaitsIff | src/enqueue.cc:1001-1037 | in every run, through wraparound, the host waits exactly while the plan does not fit behind what is acknowledged, and proceeds exactly when it does |
| WorkFifoSafety.SelectChannel | src/device/common.h:125-144 | the channel a block picks is the only one with works whose number of predecessors with works is the block number |
| WorkFifoSafety.BlocksIncrease | src/enqueue.cc:565-583 | channels with works have increasing block numbers |
| ProxyPool.FindCut | src/proxy.cc:485-504 | the chain is cut behind the last operation whose opCount is not that of the last one; all operations behind the cut share the last opCount; there is no cut if and only if all pending operations share one opCount |
| ProxyPoolSafety.InitialList | src/proxy.cc:1261-1265 | initially each rank's operations form its shared free list and every other list is empty |
| ProxyPoolSafety.WalkIsList | src/proxy.cc:493-499 | the cutting loop walks exactly the pending list up to its last operation |
| ProxyPoolSafety.AppendKeeps | src/proxy.cc:461-484 | taking a private operation, filling it and linking it behind the pending ones keeps every list |
| ProxyPoolSafety.SwapKeeps | src/proxy.cc:466-474 | the compare-and-swap on the shared head, successful or not, keeps every list |
| ProxyPoolSafety.PostKeeps | src/proxy.cc:440-451 | posting a cut prefix, or everything, behind what is posted keeps every list and every rank's order |
| ProxyPoolSafety.CutBetweenOpCounts | src/proxy.cc:485-510 | in every run a full pending list is cut where the last opCount begins: what is before is posted, what is behind stays; the append fails if and only if all of it shares one opCount |
| ProxyPoolSafety.DrainKeeps | src/proxy.cc:756-777 | consuming an operation and pushing it on the list to return keeps every list and every rank's order |
| ProxyPoolSafety.PublishKeeps | src/proxy.cc:779-799 | storing or swapping in the returned list's head keeps every list; the internal error is never reached |
| ProxyPoolSafety.RepairKeeps | src/proxy.cc:790-795 | so does the path after the swap finds the shared list taken |
| ProxyPoolSafety.RunInv | src/proxy.cc:440-513 | the invariant holds in every state of every interleaving of all ranks and the progress thread |
| ProxyPoolSafety.OnePlace | src/proxy.cc:715-802 | in every run each operation is on exactly one list, once: private, shared, pending, posted, being drained or being returned |
| ProxyPoolSafety.ConsumedInOrder | src/proxy.cc:756-777 | in every run a rank's operations are consumed in the order appended, none skipped or repeated |
| ProxyPoolSafety.StepsAreSafe | src/proxy.cc:453-513 | no reachable step follows a link out of the pool, and the failed swap never finds another list |
| ProxyPoolSafety.ProgressUnlessQuiet | src/proxy.cc:715-802 | the progress thread can step exactly when something is posted, taken or being returned |
| ProxyPoolSafety.ProgressDecreases | src/proxy.cc:746-802 | every step of the progress thread lowers a bound on the steps left until it is quiet |
| ProxyPoolSafety.WaitingMeansInFlight | src/proxy.cc:466-470 | a rank that finds no free operation has one posted, being drained or being returned |
| ProxyPoolSafety.WaitingIsServed | src/proxy.cc:466-470 | in every run, while a rank spins for an operation the progress thread can step |
| ProxyBatch.CallCounts | src/proxy.cc:750-763 | in every run, at any time during a call, the counter is the number of batches of one peer and opCount begun in it, and never above the batch size |
| ProxyBatch.CallStopsIff | src/proxy.cc:754-760 | a call consumes the next operation if and only if there is one and no more than the batch size of batches have then been begun |
| TopoLinks.FindPciCost | src/graph/search.cc:69-82 | the first loop raises the PCI cost by a fifth exactly for PHB paths from a GPU through an Intel CPU |
| TopoLinks.FollowSteps | src/graph/search.cc:84-104 | the whole path is charged if and only if no link would go below zero over the whole path; otherwise a prefix is; giving back always completes |
| TopoLinks.ChargeUndone | src/graph/search.cc:145-148 | following a path with the opposite sign restores every link exactly |
| TopoSearch.Search.FollowPath | src/graph/search.cc:106-149 | a path is charged, and its hops counted, if and only if its type is within the limit (for trees both ways) and every link has the bandwidth; otherwise nothing changes; giving back never fails |
| TopoSearch.Search.Take | src/graph/search.cc:324-328 | a hop to a GPU is taken with its bandwidth and its links counted, or it lacks bandwidth or type and nothing changes |
| TopoSearch.Search.Give | src/graph/search.cc:332-332 | exactly that hop is given back |
| TopoSearch.Search.Offer | src/graph/search.cc:517-530 | index order, replay and free order offer only GPUs that may come next, and all of them |
| TopoSearch.Search.NextGpuSort | src/graph/search.cc:228-296 | offered are exactly the other GPUs with a path that are not in the channel yet, with NVSwitches exactly the neighbours among them |
| TopoSearch.Search.TryGpu | src/graph/search.cc:324-335 | going to a GPU, on from it and back: bandwidths, marks, channel count, hop count and all other graph fields are restored, earlier rows stay, what is kept is the first graph or one the node can carry, and never gets worse; unless time ran out no graph on offer that goes to this GPU beats it |
| TopoSearch.Search.TryNvls | src/graph/search.cc:337-368 | the same restoring, with the channel connected to the NVSwitch both ways if the bandwidth is there; what is kept the node can carry |
| TopoSearch.Search.Spread | src/graph/search.cc:340-353 | as many paths between NVSwitch and GPUs as have bandwidth are charged, the head's twice |
| TopoSearch.Search.Gather | src/graph/search.cc:358-366 | exactly these are given back |
| TopoSearch.Search.RecGpu | src/graph/search.cc:453-548 | from a GPU of the channel the recursion terminates and restores everything for every pattern and order; unless time ran out no graph on offer that goes on from there beats what is kept |
| TopoSearch.Search.Put | src/graph/search.cc:473-473 | the GPU is written at its position and what the channel has taken so far stays what its row says |
| TopoSearch.Search.GoOn | src/graph/search.cc:475-546 | back to a NIC, NVSwitch, next GPU, loop back or end: whichever it is, the same restoring and trying |
| TopoSearch.Search.EndHere | src/graph/search.cc:543-546 | a channel that need not go back ends at its last GPU; the same restoring and trying |
| TopoSearch.Search.KeepIfBetter | src/graph/search.cc:460-467 | the graph replaces what is kept if and only if it is better, and time then ends at -1 exactly with the wanted number of channels; a graph so kept is carried by the node and has enough channels |
| TopoSearch.Search.CloseChannel | src/graph/search.cc:461-461 | a complete channel joins the others: its legs are those its row and NICs record |
| TopoSearch.Search.ReopenChannel | src/graph/search.cc:470-470 | and is taken up again |
| TopoSearch.Search.Complete | src/graph/search.cc:458-472 | the completed graph does not beat what is kept afterwards, and the search for more channels restores everything; unless time ran out none that continues it does either |
| TopoSearch.Search.NextGpus | src/graph/search.cc:517-532 | index order, replay of the previous channel and free order try every GPU they may; unless time ran out nothing on offer that goes on from this GPU beats what is kept |
| TopoSearch.Search.LoopBack | src/graph/search.cc:533-542 | the way from the last GPU of a ring to its first is charged and given back; a graph kept with it has the bandwidth for it; unless time ran out nothing on offer beats what is kept |
| TopoSearch.Search.BackToNic | src/graph/search.cc:476-514 | the way back over every NIC the rules allow: everything restored, and unless time ran out nothing on offer that returns from this GPU beats what is kept |
| TopoSearch.Search.TryNic | src/graph/search.cc:491-512 | the same for one NIC, with the bandwidth halved and restored for balanced trees |
| TopoSearch.Search.TakeNic | src/graph/search.cc:492-505 | the way back is taken at its cost and the NIC recorded, or it lacks bandwidth or type and nothing changes |
| TopoSearch.Search.GiveNic | src/graph/search.cc:508-510 | exactly that hop is given back |
| TopoSearch.Search.FollowToNic | src/graph/search.cc:493-503 | the path to a NIC is charged, at half the bandwidth for a balanced tree, if and only if it is near enough and every link has it |
| TopoSearch.Search.RecNet | src/graph/search.cc:550-628 | a channel from every NIC that has bandwidth and the rules allow: everything restored, and unless time ran out nothing on offer beats what is kept |
| TopoSearch.Search.FromNic | src/graph/search.cc:557-625 | NIC bandwidth, shared by ASIC and port and truncated to an integer amount, is given back exactly; unless time ran out nothing on offer that starts from this NIC beats what is kept |
| TopoSearch.Search.TakeStart | src/graph/search.cc:564-572 | the NIC, its latency and its share of bandwidth are recorded as the start of the channel |
| TopoSearch.Search.GiveStart | src/graph/search.cc:619-624 | and given back |
| TopoSearch.Search.StartAt | src/graph/search.cc:574-613 | a channel started with a GPU that its order allows: everything restored, and unless time ran out nothing on offer that starts so beats what is kept |
| TopoSearch.Search.ReplayFrom | src/graph/search.cc:582-587 | the previous channel again from its first GPU: everything restored, and unless time ran out nothing on offer with the same row beats what is kept |
| TopoSearch.Search.FreshFrom | src/graph/search.cc:588-616 | index order on its own timer, then the nearest GPUs; everything restored, and unless time ran out nothing on offer in free order beats what is kept |
| TopoSearch.Search.NearGpus | src/graph/search.cc:597-615 | from a NIC the nearest GPUs, if near enough, are all that free order offers: everything restored, and unless time ran out nothing on offer in free order beats what is kept |
| TopoSearch.Search.FindNearest | src/graph/search.cc:597-607 | bandwidth and links found are those of exactly the GPUs with most bandwidth from the NIC and, among them, fewest links |
| TopoSearch.Search.Intra | src/graph/search.cc:667-687 | without NICs: the NVLS head, index order or replay, and every GPU as the first; everything restored, and unless time ran out nothing on offer beats what is kept |
| TopoSearch.Search.FromAnyGpu | src/graph/search.cc:681-686 | every GPU as the first one: everything restored, and unless time ran out nothing on offer in free order beats what is kept |
| TopoSearch.Search.ChannelFrom | src/graph/search.cc:574-617 | NVLS heads, replay, index order on its own timer and nearest GPUs all restore everything; unless time ran out nothing on offer from this NIC beats what is kept |
| TopoSearch.Search.SearchRec | src/graph/search.cc:661-689 | the whole search terminates and restores everything; what is kept is the first graph or one with enough channels that the node can carry, and never gets worse; unless time ran out no graph on offer that the node can carry is better |
| TopoSearch.FindChannels | src/graph/search.cc:926-932 | one search from the start: bandwidths and graph are as before; what is kept is the graph given or one with enough channels that the node can carry; with time left, no graph on offer that the node can carry is better; with time at -1, none has more bandwidth |
| TopoGraph.KeptRowsArePermutations | src/graph/search.cc:462-464 | every saved channel row is a permutation of the node's GPUs |
| TopoGraph.BetterIff | src/graph/search.cc:370-391 | except for NVLS, a graph is better if and only if it has enough channels and taking it instead means more bandwidth, or as much over fewer hops |
| TopoGraph.BetterIsOrder | src/graph/search.cc:370-391 | except for NVLS the comparison is a strict order |
| TopoGraph.NvlsBothBetterIff | src/graph/search.cc:374-378 | two NVLS graphs are each better than the other if and only if one has more channels, no more than GPUs, and the other more bandwidth |
| TopoGraph.StaysBeaten | src/graph/search.cc:370-391 | what was beaten once stays beaten by whatever is kept later |
| TopoStages.TakenIsCarried | src/graph/search.cc:458-467 | what the search has taken when a graph is saved is, hop by hop, what the rows and NICs of that graph need: it can be carried by the node as it was |
| TopoStages.LeadsOn | src/graph/search.cc:324-328 | a hop taken to a GPU is the next leg of the route its row records |
| TopoStages.StandsReturned | src/graph/search.cc:491-503 | so is a hop taken back to a NIC |
| TopoStages.LeadsThroughSwitch | src/graph/search.cc:337-358 | so are the hops between the NVSwitch and all GPUs |
| TopoOffers.GpuBeaten | src/graph/search.cc:324-335 | if the hop to a GPU cannot be taken, or what follows it is beaten, every graph that goes there is |
| TopoOffers.NextBeaten | src/graph/search.cc:517-532 | if all GPUs that may come next are beaten, so is every graph that goes on from here |
| TopoOffers.NicsBeaten | src/graph/search.cc:476-514 | if all NICs the rules allow are beaten, so is every graph that returns from here |
| TopoOffers.AroundBeaten | src/graph/search.cc:533-542 | the same for the loop back to the first GPU |
| TopoOffers.DoneBeaten | src/graph/search.cc:458-472 | a graph that continues a complete channel is that graph or goes on from the next channel |
| TopoOffers.FirstBeaten | src/graph/search.cc:597-616 | in free order every graph starts with one of the GPUs tried |
| TopoOffers.OrdersBeaten | src/graph/search.cc:582-616 | every graph on offer has the next channel in one of the orders tried |
| TopoOffers.StartsBeaten | src/graph/search.cc:550-563 | every graph on offer starts its next channel from one of the NICs tried |
| Dtree.GetBtree | src/graph/trees.cc:31-65 | the bit manipulations compute parent, child type and both children of the tree of the specification |
| Dtree.ParentKnowsChild | src/graph/trees.cc:46-50 | the parent a rank computes has that rank as the child it says it is, for every rank count |
| Dtree.ChildKnowsParent | src/graph/trees.cc:52-62 | every child a rank computes computes that rank as its parent, and the same child type |
| Dtree.GetDtree | src/graph/trees.cc:88-109 | both trees, the second mirrored or shifted, for every rank |
| Dtree.OneRoot | src/graph/trees.cc:38-44 | each tree has exactly one root |
| Dtree.TreeParentKnowsChild | src/graph/trees.cc:88-109 | in both trees parent answers agree with child answers and types |
| Dtree.TreeChildKnowsParent | src/graph/trees.cc:88-109 | and child answers with parent answers |
| Dtree.DepthIsLogarithmic | src/graph/trees.cc:31-109 | every rank reaches the root of either tree within ceil(log2 nranks) hops |
| Dtree.AtMostTwoChildren | src/graph/trees.cc:88-109 | over both trees no rank has more than two children |
| ProxyArgs.Lists.constructor | src/proxy.cc:192-216 | empty lists satisfy the invariant |
| ProxyArgs.Lists.AllocateArgs | src/proxy.cc:192-216 | an element leaves the pool, refilled when empty, and no chain, slot or history changes |
| ProxyArgs.Lists.ProxyAppend | src/proxy.cc:350-438 | refused if and only if the operation would join an element that is full, of another kind or running; otherwise it joins the last element of its slot, or a free element carries it behind that one, or becomes the last active one; nothing else in any chain changes |
| ProxyArgs.Lists.RemoveOp | src/proxy.cc:660-690 | the element returns to the pool, the waiting one takes its place in the active list, and the walk continues with the next active element |
| ProxyArgs.Lists.ProgressOps | src/proxy.cc:692-711 | exactly the elements active at the start are advanced, once each; of them exactly those that finish leave their chains, with what they carry appended to what their slot has finished; nothing else in any chain changes |
| ProxyArgs.OneList | src/proxy.cc:272-348 | every element is in the free pool or in exactly one chain, once; exactly the fronts of chains are active |
| ProxyArgs.FinishedInOrder | src/proxy.cc:660-711 | what a slot has finished is a prefix of what was appended to it |
| P2pSchedule.RoundIsExact | src/init.cc:1314-1338 | a round uses exactly its own node offsets, each once, for every node count |
| P2pSchedule.EveryOffsetOnce | src/init.cc:1311-1340 | every node offset is scheduled exactly once |
| P2pSchedule.AlignsToEight | src/init.cc:1305-1306 | the number of steps is at least the largest number of ranks on a node, less than eight more, and divides eight or is a multiple of it |
| P2pSchedule.BuildTables | src/init.cc:1129-1144 | local ranks and rank lists are inverse to each other for any distribution of ranks, and the maximum is that of the longest list |
| P2pSchedule.BuildOrder | src/init.cc:1307-1340 | both order arrays are filled exactly, entry by entry as specified |
| P2pSchedule.P2pOrders | src/init.cc:1299-1341 | from any distribution of ranks to nodes: the tables and steps satisfy what the next rows need, and both arrays hold exactly the orders they speak about |
| P2pSchedule.OrdersMatch | src/init.cc:1318-1329 | at every position a sends to b if and only if b receives from a |
| P2pSchedule.SendsOnce | src/init.cc:1318-1329 | every rank occurs exactly once in every rank's send order |
| P2pSchedule.ReceivesOnce | src/init.cc:1318-1329 | and exactly once in every rank's receive order |
| ReduceCopy.ReduceCopyPacks | src/device/common_kernel.h:43-181 | what one thread handles in a pass, the collective position after it, and the thread's new number |
| ReduceCopy.LoopCondition | src/device/common_kernel.h:76-76 | both forms of the loop condition say whether the lane takes part in the hunk |
| ReduceCopy.RotationIs | src/device/common_kernel.h:170-180 | all lanes of a warp, taking part in the last partial hunk or not, get the same new warp number |
| ReduceCopy.RenumberingInverse | src/device/common_kernel.h:174-180 | the renumbering after a pass is a permutation of the threads |
| ReduceCopy.PassHandlesOnce | src/device/common_kernel.h:43-181 | in a pass every byte to be taken care of is handled by exactly one thread, iteration and pack, and no other byte |
| ReduceCopy.NothingLeft | src/device/common_kernel.h:204-242 | together the passes take care of every byte, for every element size, unrolling and every alignment of the buffers |
| ReduceCopy.VoteAligned | src/device/common_kernel.h:213-217 | the vote of the lanes says whether all buffers they look at are aligned to the big pack |
| ReduceCopy.BigPacksIff | src/device/common_kernel.h:208-230 | big packs are used if and only if they are bigger than an element and every source and destination address looked at is a multiple of their size |
| ReduceCopy.PackIsAligned | src/device/common_kernel.h:43-242 | every pack of every pass starts, in every buffer checked, at a multiple of the pack size |
| ReduceCopy.WorkLists | src/device/common_kernel.h:76-168 | the packs a thread lists are those of its hunks in order |
| ReduceCopy.ReduceCopyThread | src/device/common_kernel.h:204-242 | a thread runs the passes in turn under its current number and stops when nothing is left |
| ReduceCopy.ReduceCopyCall | src/device/common_kernel.h:187-242 | without destinations nothing is done; otherwise a thread does its packs pass by pass until nothing is left, every one aligned in every buffer |
| ReduceCopy.ReduceCopyHandlesOnce | src/device/common_kernel.h:187-242 | each byte of nElts elements is handled by exactly one thread in exactly one pass |
| Barrier.UnexpectedDequeue | src/bootstrap.cc:458-478 | the first matching connection is found if there is one, and only it is removed |
| Barrier.RunInv | src/bootstrap.cc:493-578 | message counts and what each rank knows stay consistent in every state of every run of repeated barriers |
| Barrier.SenderIsAsFar | src/bootstrap.cc:569-574 | a message of a round proves that its sender has come as far in that barrier, also if it was sent for a later barrier with the same tag |
| Barrier.LearnsMore | src/bootstrap.cc:569-574 | each round doubles the ranks known to have entered, for any rank count |
| Barrier.NobodyLeavesEarly | src/bootstrap.cc:559-578 | no rank returns from its k-th barrier before every rank has entered its k-th |
| Barrier.BarrierNeverStuck | src/bootstrap.cc:559-578 | once all have entered k barriers, some rank that has not left them can move until all have |
| Packer.Share | src/enqueue.cc:456-458 | a channel's part is a multiple of the alignment that fills the channel up to the limit, by at most one aligned unit too much, or finishes the collective |
| Packer.AddCbdColl | src/enqueue.cc:453-489 | a collective for which the channels have room is placed completely, contiguous and in order, at aligned offsets, on different channels, and no channel goes further over the limit than one aligned unit |
| Packer.ScheduleCbd | src/enqueue.cc:834-847 | with the limit computed from the total, every queued collective is placed completely, at aligned offsets, and no channel carries more than an equal share, rounded up, and one aligned unit |
| Packer.CoveredOnce | src/enqueue.cc:464-488 | every element of a collective lies in exactly one work element |
| Packer.ChannelsDiffer | src/enqueue.cc:453-489 | no two work elements of a collective share a channel |
| Packer.LeastLoaded | src/enqueue.cc:351-380 | the selection picks different channels, none more loaded than one not picked |
| Packer.AddTunedColl | src/enqueue.cc:344-413 | the collective is divided completely among the least loaded channels in equal aligned shares at aligned offsets, the last one smaller, and every chosen channel gets some |
| Rings.FindPreset | src/graph/connect.cc:43-49 | a rank finds the ends of its chain and its neighbours |
| Rings.ConnectRings | src/graph/connect.cc:91-109 | the end of every chain is linked to the start of the next node's, links inside chains stay |
| Rings.StitchedIsCycle | src/graph/connect.cc:91-109 | chains that partition the ranks become one cycle through all ranks, both ways |
| Rings.BuildRing | src/graph/rings.cc:22-57 | the walk succeeds if and only if it comes back and has met every rank |
| Rings.RingIsBuilt | src/graph/rings.cc:31-55 | from every rank the walk around a stitched ring comes back after meeting every rank |
| Rings.SetupChannel | src/init.cc:524-540 | the index is the distance from rank 0, and the ranks are listed from this one on |
| Rings.IndexAdvances | src/init.cc:530-535 | the next rank on the ring has the next index modulo the rank count |
| Rings.RingIndex | src/init.cc:530-535 | what a rank computes from its own walk is that index |
| Rings.RingOf | src/graph/rings.cc:22-57 | from gathered presets to ring and index: for any partition into chains the ring is built from every rank |
| Swar.Sum4IsElementwise | src/device/reduce_kernel.h:174-183 | the two masked additions add four bytes without carries between them |
| Swar.Prod4IsElementwise | src/device/reduce_kernel.h:210-222 | low and high halves of masked multiplications multiply four bytes |
| Swar.DeltaSign | src/device/reduce_kernel.h:193-203 | the 9-bit subtraction leaves all ones exactly in the lanes where the first operand is smaller |
| Swar.MinMax4IsElementwise | src/device/reduce_kernel.h:186-207 | the four-lane comparison is the comparison of each byte |
| Swar.HalvesAreElementwise | src/device/reduce_kernel.h:132-144 | reducing by halves is reducing element by element |
| Swar.PackIsElementwise | src/device/reduce_kernel.h:132-222 | with the four-lane shortcuts too, for packs of any size |
| Swar.MaskPicks | src/enqueue.cc:1841-1858 | with the host's mask the unsigned comparison yields exactly the minimum or maximum of signed or unsigned integers of every width |
| P2pSteps.RunLoop | src/device/sendrecv.h:25-54 | the send or receive loop makes exactly the steps the host announced, including zero bytes, LL and registered buffers, over consecutive pieces that cover the message and with their flags fit the chunk |
| P2pSteps.PiecesFit | src/device/sendrecv.h:25-54 | pieces no longer than a chunk, or half of it with LL, fit the chunk, as LL lines with their flags |

## Left out

- The COCCL compression runtime, CollNet, NVLS, tree and LL128 kernels, direct and registered-buffer kernels: they rest on hardware or code that is not part of this model.
- GPU and CPU memory ordering, fences and volatile loads: a published counter, a 16-byte line or a critical section is one atomic step.
- Abort flags, error returns and logging: runs are the non-aborting ones; internal errors the model keeps are named above.
- Sockets, shared memory, network plugins and their tuning: sends and connections of the barrier are buffered events.
- Persistent (graph-captured) plans: they write works to a heap of their own; that they also set the channel counter is not modelled.
- The work budget of scheduleCollTasksToPlan, which may defer collectives to a later plan, and self send/receive under such a cut.
- Scores, rounding and path computation of the topology search: bandwidths are exact reals, GPU scores allow any order, and the interfaces returned by ncclTopoSelectNets are part of the topology.
- Flattening of the channel rows of the topology graph into one array: rows are a sequence of rows.
- The chunk size chosen by ncclProxyComputeP2p for the network: a parameter of the send and receive loops.
- FIFO order of several ranks' operations in the proxy pool beyond the order of each rank's own.
- The linked structure of the barrier's queue of unexpected connections: a sequence, so relinking of its nodes is not captured.
- ProxyArgs.Lists.ProxyAppend: a refused append changes nothing, where the source has already stored and counted the sub-operation when it returns the internal error.
- P2pSteps.RunLoop: the chunk holds at least one element (two for LL), because the host divides by it.
- Packer.AddTunedColl: the element count is at least one, because the source divides by the share of a channel.
- RingAllReduce.EveryMaximalRunReduces: the order of operands is free, so floating-point reductions, which are not associative, are covered only by RingAllReduce.StoredAtEnd.
- WorkFifoSafety.RunInv: a plan has at most as many works as the ring has slots; the host's budget is half of that (src/enqueue.cc, ncclLaunchPrepare).
- TopoSearch.Search.SearchRec: that nothing on offer is better is stated if time is left at the end, and not for NVLS patterns, whose comparison is not an order, for split trees on a node with a single GPU, nor for rows tried in index order from a NIC, which have a timer of their own.
- The sequence of searches in ncclTopoCompute with changing speeds, path types and patterns: one search is modelled.
- Packer.AddCbdColl: channel loads are passed in and returned, so the update of the plan in place is not captured.
