# I/O scheduling and isolation: a Dafny model

The system schedules pods by disk bandwidth, cache and memory bandwidth, and enforces what it promised
on the node. Three parties keep copies of the same accounting: the scheduler (a cache per node and a
ledger of reserved pods), the aggregator (which passes pod lists down and statuses up) and the node agent
(which divides the bandwidth among the pods). This project models the accounting and the protocol that
keeps the copies in step, and proves what holds of them.

Where a promise does not hold of the code as it is, the code is modelled as it is: a lemma gives an input
on which the promise fails, and another says exactly when it holds.

How the model relates to the code:

- One node, with a fixed set of devices. Each handler is one atomic step.
- Floating-point numbers are `real`; conversions to integers and integer divisions truncate toward zero
  (`IoTypes.Trunc`, `TruncDiv`). Quantity suffixes are decimal, so the default block sizes "4k" and "32k"
  are 4000 and 32000.
- Bit masks are sets of bits.
- A Go map is a `map`; the order in which it is walked is arbitrary, and where it can be observed it is a
  parameter or a ghost result.
- Objects that the code updates in place are classes. Each method is specified by a function of the old
  state, and the lemmas are about those functions and about whole runs built from them.
- Answers of the Kubernetes API, parsed quantities and the structured content of JSON are inputs.

Files:

| file | content |
|---|---|
| `Sums.dfy`, `Sorting.dfy`, `IoTypes.dfy` | sums over maps and slices, permutations, shared records |
| `DiskCache.dfy`, `Ledger.dfy`, `Scheduler.dfy`, `SchedulerRuns.dfy`, `StatusRuns.dfy` | the scheduler's disk cache, its ledger and publication queue, Filter, Reserve, Unreserve and Delete, runs of them, and runs in which the agent's numbers overwrite the cache |
| `RdtQuantity.dfy` | the class table for cache and memory bandwidth |
| `MappingRatios.dfy`, `RequestMerge.dfy`, `VolumeRequests.dfy`, `Packer.dfy`, `PackedRequests.dfy` | from volume annotations to requests per device, first-fit packing, and the charge for packed volumes against what was packed |
| `PodLists.dfy`, `Protocol.dfy`, `Counting.dfy` | delta pod lists and the agent's tables, the generation protocol, and what its numbers count |
| `EventBuffer.dfy`, `Rendezvous.dfy`, `Engine.dfy` | the agent's flag-gated event buffer, its registration of one pod, and the disk engine with tables and registrations |
| `Bandwidth.dfy`, `Agreement.dfy` | the division of a disk's bandwidth, and its agreement with the scheduler |
| `BlockSplit.dfy`, `Annotation.dfy` | the block-size split, and the annotation round trip |

## Model

| member | source | states |
|---|---|---|
| `Protocol.OverwriteIsCurrent` | pkg/scheduler/resource/eventhandler.go:502-530 | on a node with one I/O type, in every run and whatever is delayed, reordered, repeated or lost, numbers that overwrite a GA pool were computed by the agent at the scheduler's current generation, from a list snapshotted since which nothing was reserved or released, and count only reserved pods |
| `Protocol.AlwaysCurrentIff` | pkg/aggregator/server.go:291-293 | the same guarantee holds for an I/O type exactly if the node reports no other, because the generation is stamped per node |
| `Protocol.ObserveIs` | pkg/scheduler/resource/eventhandler.go:520-529 | a status is taken over for every type it has filled in if it changed, has as many types as before and is of the current generation; otherwise it changes nothing |
| `Protocol.GaIsLastAdmitted` | pkg/scheduler/blockio/handle.go:860-891 | what the scheduler has for an I/O type is what the last status that passed the guard carried, and nothing exactly if none did |
| `Protocol.GaWasCurrent` | pkg/scheduler/resource/eventhandler.go:502-530 | on a node with one I/O type the GA pools hold at any time numbers that were current when they were taken over |
| `Protocol.MissedIff` | pkg/agent/disk/engine.go:523-548 | for the list that overwriting numbers were computed from: a reserved pod is missing from them exactly if that list did not name it, or named it without details the agent had, or the agent unregistered it between taking the list and computing |
| `Protocol.DroppedListLosesPod` | pkg/aggregator/client.go:403-406 | without any failing call, dropping an out-of-date list leads to numbers that do not count a reserved pod, and no list with its details can still be sent or received |
| `Protocol.UnregisteredPodLost` | pkg/agent/disk/engine.go:521-548 | a reserved pod whose details every list carried is not counted after the agent unregisters it and reports under the unchanged generation |
| `Counting.OverwriteCountsSome` | pkg/agent/aggregator.go:85-98 | in every run of the protocol, with annotations as the scheduler wrote them, overwriting numbers count only pods of the ledger as it is then, each as its annotation reads, as the runs with overwrites require |
| `Counting.CountsLedgerIff` | pkg/agent/disk/engine.go:523-548 | they count the whole ledger exactly if no reserved pod was unknown when the list behind them was received and none was unregistered before they were computed |
| `Protocol.RunHonest` | pkg/scheduler/resource/context.go:229-254 | in every reachable state every spec, list, report and table names only pods that were reserved at the generation it carries |
| `Protocol.ReportComputed` | pkg/agent/disk/engine.go:221-265 | every report stems from a step that computed it from the engine's observed generation and tables |
| `PodLists.DeltaRefinesFull` | pkg/aggregator/server.go:156-188 | sending details of new pods only does, from any state of the agent and whatever it unregisters in between, what sending the full list every time does, if annotations are readable and do not change while listed |
| `PodLists.DeltaStepIff` | pkg/agent/aggregator.go:85-98 | one delta equals the full list exactly if the store has the details of every pod the delta leaves out |
| `PodLists.AlwaysSameIff` | pkg/aggregator/server.go:229-261 | over every run of readable lists, details of new pods only do at every moment what full lists would have done exactly if no list leaves out details that the agent's store lacks or has otherwise |
| `PodLists.ChangedAnnotationMissed` | pkg/aggregator/server.go:240-245 | an annotation that changes while its pod stays listed: the agent keeps the old details, which full lists would have replaced |
| `PodLists.DeltaListsExact` | pkg/agent/disk/engine.go:663-714 | after any number of delta lists the agent's tables hold exactly the requests of the listed pods, each on its device and in its group, less the pods unregistered since the last list; earlier unregistering is undone by the next list |
| `PodLists.ResyncRestoresIff` | pkg/agent/common/workload.go:81-112 | one list restores the tables from any state exactly if no listed pod has an old entry on another device or in another group |
| `PodLists.ChangedPodCountsTwice` | pkg/agent/common/workload.go:81-112 | a pod whose annotation changes from guaranteed to burstable stays in both groups |
| `PodLists.Aggregator.GetPodList` | pkg/aggregator/server.go:156-188 | added pods carry what the API server answers, unreadable ones are left out, the others are named only |
| `PodLists.Aggregator.TakeSpec` | pkg/aggregator/server.go:229-261 | a spec replaces the cached pods and generation, and the leader queues the delta against the previous pods |
| `PodLists.Aggregator.UpdatePodList` | pkg/aggregator/client.go:394-420 | a list older than the latest generation, or without a client, is dropped; any other is delivered unless the call fails, and queued again if it is not answered |
| `PodLists.Aggregator.UpdateNodeIOStatus` | pkg/aggregator/server.go:359-387 | the leader accepts a report exactly if it is not older than the latest generation; otherwise, with a client and a pod cache, a full list is queued |
| `Protocol.ReportTakenOrAnswered` | pkg/aggregator/server.go:370-387 | a report is taken exactly if it is not older than the latest spec; any other is answered with a list of that generation that has the details of every readable pod |
| `PodLists.Agent.ProcessPodsFromAggregator` | pkg/agent/aggregator.go:60-178 | details that come along are remembered, others are looked up, unknown pods are skipped, and disk requests become events, the last one for a device winning; `Agreement.EnteredIff` says what they are |
| `PodLists.ExpandedAt` | pkg/agent/aggregator.go:85-98 | details with at least one request are taken, over older ones; without them the pod's older details are used, or the pod is skipped |
| `Agreement.EnteredIff` | pkg/agent/aggregator.go:129-150 | in the tables a pod is in GA of a device exactly if it has a name, the device is profiled, it is not best effort there and its four request numbers equal its four limit numbers; in BT exactly if some number differs, in BE exactly if it is best effort; with the annotation's request, limit and raw numbers |
| `Agreement.NotEntered` | pkg/agent/aggregator.go:99-150 | a pod that asks nothing of a device is in no group of it |
| `Agreement.DeltasEnterIff` | pkg/agent/aggregator.go:129-150 | so it is after any number of delta lists, for pods not unregistered since the last |
| `Counting.ReservedEnteredIff` | pkg/agent/aggregator.go:138-150 | from the ledger through the annotation: the group follows from the class and from whether the reserved request and limit bandwidths are equal |
| `SchedulerRuns.CacheAgreesWithLedger` | pkg/scheduler/blockio/handle.go:579-626 | after every run of completed steps each disk's GA pool is its share less what the ledger holds on it, BE.Num is the number of best-effort pods, a rebuild changes nothing and the clamp of BE.Num never fires |
| `SchedulerRuns.NothingOverCommitted` | pkg/scheduler/blockio/handle.go:117-163 | from an empty ledger, in every run of Filter, Reserve and deletions in between, what is held stays within each GA pool and the BE pool exceeds BE.Num times the minimum in every direction |
| `SchedulerRuns.RunKeeps` | pkg/scheduler/plugin.go:175-301 | every step keeps agreement, solvency, and the admissibility of the pod that waits between Filter and Reserve |
| `SchedulerRuns.Perform` | pkg/scheduler/plugin.go:175-301 | from a reachable state, the plugin's own methods make exactly the step of the run, and keep the invariant |
| `SchedulerRuns.ReserveIsNext` | pkg/scheduler/plugin.go:243-284 | in a reachable state no requested device is unknown, so Reserve debits all that was admitted |
| `StatusRuns.PoolsStayClose` | pkg/scheduler/blockio/handle.go:860-891 | in every run of scheduling steps and of overwrites for the current generation, whatever reserved pods the agent missed and whatever devices a status lacks or has not filled in: each GA pool is at least what a rebuild gives plus what the last effective overwrite left out, and less than 2 more, also after the missed pods are released; BE.Num is exact |
| `StatusRuns.LittleOverCommitted` | pkg/scheduler/blockio/handle.go:860-891 | in those runs what is held exceeds a GA share by less than 2 plus the largest amount an overwrite ever left out, and the BE pool exceeds BE.Num times the minimum |
| `StatusRuns.CompleteRunsStayClose` | pkg/scheduler/blockio/handle.go:860-891 | if no overwrite misses a pod or a device, each GA pool is at least what a rebuild gives and less than 2 above it, and what is held exceeds no share by 2 or more |
| `StatusRuns.RunKeeps` | pkg/scheduler/blockio/handle.go:860-916 | every step and every overwrite keeps that, also for the pod that waits between Filter and Reserve |
| `StatusRuns.OverwriteNearIff` | pkg/scheduler/blockio/handle.go:894-916 | an overwrite keeps a GA pool close exactly if the status has the device or nothing is left on it |
| `StatusRuns.LackedDeviceEmptied` | pkg/scheduler/blockio/handle.go:894-916 | the status without a device that empties its GA pool |
| `StatusRuns.BackHolds` | pkg/aggregator/server.go:190-226 | a pod's requests, read back from its annotation, hold what the ledger entry holds on every device |
| `DiskCache.Resource.UpdateCacheNodeStatus` | pkg/scheduler/blockio/handle.go:860-916 | a status of the current generation replaces the GA pools and the BE pressure, except where the numbers are not filled in; a device it lacks is emptied |
| `SchedulerRuns.AdmittedStaysSolvent` | pkg/scheduler/blockio/handle.go:117-163 | debiting an admitted request leaves a disk solvent |
| `SchedulerRuns.AdmittedIff` | pkg/scheduler/blockio/handle.go:127-163 | a request is admitted on a device exactly if there is space, no pressure, and the debit leaves no GA pool overdrawn, or every BE pod more than the minimum |
| `SchedulerRuns.StatusDecidesAdmission` | pkg/scheduler/blockio/handle.go:894-916 | a status that passes the guard decides what is admitted on a device: nothing of a class under pressure, what its numbers cover for GA, and the pool as it was for BE |
| `SchedulerRuns.ReturnKeepsFit` | pkg/scheduler/blockio/resource.go:135-155 | giving bandwidth back keeps an admitted request admissible |
| `Scheduler.ReserveKeepsAgreementIff` | pkg/scheduler/plugin.go:243-284 | Reserve keeps cache and ledger in agreement exactly if whatever it debits is recorded and it overwrites no entry that holds bandwidth |
| `Scheduler.ReserveEnters` | pkg/scheduler/plugin.go:248-283 | the pod is entered under its own name with all that was granted exactly if Reserve completes with something granted; other pods stay |
| `Scheduler.FailedMappingLeaks` | pkg/scheduler/blockio/resource.go:113-119 | a failing claim mapping after the debit: an admitted best-effort pod is reserved with BE.Num raised, and an admitted guaranteed pod is refused with GA debited, both without a ledger entry |
| `Scheduler.ReleaseKeepsAgreementIff` | pkg/scheduler/resource/context.go:243-254 | Unreserve keeps the agreement exactly if the pod names the node, or held nothing there |
| `Scheduler.UnboundReleaseLeaks` | pkg/scheduler/plugin.go:286-301 | releasing a pod that does not name its node credits the cache and keeps the ledger entry |
| `Scheduler.AgreesIffRebuildIdle` | pkg/scheduler/blockio/handle.go:579-626 | cache and ledger agree exactly if InitNodeStatus would change nothing |
| `Scheduler.CreditUndoesDebit` | pkg/scheduler/blockio/resource.go:124-156 | away from the clamp, RemovePod is the exact opposite of AddPod |
| `Scheduler.ResourceIo.Filter` | pkg/scheduler/plugin.go:175-205 | remembers the request exactly if it is admitted |
| `Scheduler.ResourceIo.Reserve` | pkg/scheduler/plugin.go:243-284 | asks the handles in turn, stops at a refusal or a critical failure, enters what was granted in the ledger, and treats an unknown device as a failure after the devices before it were debited |
| `Scheduler.ResourceIo.Unreserve` | pkg/scheduler/plugin.go:286-301 | gives back what the ledger says, up to the first unknown device, and removes the entry under the node the pod names |
| `Scheduler.ResourceIo.DeletePod` | pkg/scheduler/resource/eventhandler.go:320-344 | does the same for a deleted pod that carries the annotation, and nothing otherwise |
| `DiskCache.Resource.CanAdmitPod` | pkg/scheduler/blockio/handle.go:91-167 | admits exactly if every requested device is known, has the space and the bandwidth or BE share, and is not under pressure |
| `DiskCache.Resource.AddPod` | pkg/scheduler/blockio/resource.go:93-112 | debits every requested device and lists the requests; at an unknown device it fails with the earlier devices debited |
| `DiskCache.Resource.RemovePod` | pkg/scheduler/blockio/resource.go:124-156 | credits what the ledger entry says, with BE.Num clamped at zero, up to the first unknown device; fails there, or without an entry |
| `DiskCache.CreditStopsAtZero` | pkg/scheduler/blockio/resource.go:149-154 | BE.Num goes down by one for a best-effort request and stops at zero |
| `DiskCache.Resource.InitNodeStatus` | pkg/scheduler/blockio/handle.go:579-626 | recomputes every pool from the ledger, in whatever order it is walked |
| `DiskCache.CalculateReservedBw` | pkg/scheduler/blockio/handle.go:519-534 | adds up a pod's guaranteed requests on a device, or finds it best effort there |
| `DiskCache.ReservedIsCharge` | pkg/scheduler/blockio/handle.go:519-534 | on a pod with one request per device that is what AddPod debited |
| `Ledger.PublishedInOrder` | pkg/scheduler/resource/context.go:161-241 | if the worker takes specs in order without failures, the k-th published spec names the pods of the k-th ledger by name and namespace, generations strictly increase although AddPod resets lastUpdatedGen, and the annotated pods are those of the last published spec |
| `Ledger.AlwaysInOrderIff` | pkg/scheduler/resource/context.go:156-175 | over every run and any failures: whatever turns of the worker follow, generations are published in ascending order exactly if no pod is added while an item that a newer one has overtaken is still queued |
| `Ledger.TurnsSafeIff` | pkg/scheduler/resource/context.go:166-175 | from any state, all sequences of turns with any failures publish in ascending order exactly if no queued item is newer than lastUpdatedGen and not newer than what was published last |
| `Ledger.RetriesSafeWithoutAdds` | pkg/scheduler/resource/context.go:73-99 | as long as no pod is added, retries in any order keep published generations ascending |
| `Ledger.ResetLetsOldSpecThrough` | pkg/scheduler/resource/context.go:156-159 | with failing attempts, AddPod's reset lets generation 1 be published after generation 2 |
| `Ledger.ResourceIoContext.AddPod` | pkg/scheduler/resource/context.go:229-241 | raises the generation, enters the pod, resets lastUpdatedGen and queues a snapshot |
| `Ledger.ResourceIoContext.RemovePod` | pkg/scheduler/resource/context.go:243-254 | raises the generation, removes the pod and queues a snapshot, if the pod names the node |
| `Ledger.ResourceIoContext.RunWorkerQueue` | pkg/scheduler/resource/context.go:73-99 | drops an outdated item, puts a failed one back at the end, and otherwise annotates the pod and publishes the spec |
| `RdtQuantity.RunsTrack` | pkg/scheduler/rdt-quantity/resource.go:112-162 | in every run of admit-then-add with deletions, BE plus the other classes equals capacity, BE limits equal BE requests, a class other than BE exists exactly while it has pods, and a pod is in one class |
| `RdtQuantity.BaselineKeptIff` | pkg/scheduler/rdt-quantity/handle.go:57-68 | BE keeps its baseline in every run exactly if no request may be negative |
| `RdtQuantity.NegativeAskBreaksBaseline` | pkg/scheduler/rdt-quantity/resource.go:118-157 | the run in which a negative request leaves BE short of its baseline by its amount |
| `RdtQuantity.RebuildGivesSameTable` | pkg/scheduler/rdt-quantity/handle.go:180-234 | after every admitted run, a rebuild from the ledger in any order has the same class amounts, BE remainder and pods per class |
| `RdtQuantity.RebuildFromLedger` | pkg/scheduler/rdt-quantity/handle.go:180-234 | so does InitNodeStatus from the pods of the ledger |
| `RdtQuantity.EntryReadsBack` | pkg/scheduler/rdt-quantity/handle.go:198-206 | what AddPod entered in the ledger, among requests of other resources, reads back as what was asked for |
| `RdtQuantity.LedgerStays` | pkg/scheduler/rdt-quantity/resource.go:140-143 | entering what AddPod returns, and taking a pod out, keep the ledger in step with the class table |
| `RdtQuantity.AnnotationReadsBack` | pkg/aggregator/server.go:190-226 | so it does from the pod's annotation |
| `RdtQuantity.TableDetermined` | pkg/scheduler/rdt-quantity/handle.go:206-231 | the ledger determines the class table up to the order of pods in a class |
| `RdtQuantity.OnlyOneClass` | pkg/scheduler/rdt-quantity/resource.go:145-162 | the first class in which RemovePod finds a pod is the only one |
| `RdtQuantity.Resource.CanAdmitPod` | pkg/scheduler/rdt-quantity/handle.go:57-68 | admits exactly a pod that joins BE or a class with the same amounts, or whose new class leaves BE its baseline; an admitted pod never takes BE below it |
| `RdtQuantity.Resource.AddPod` | pkg/scheduler/rdt-quantity/resource.go:112-143 | joins a matching class or creates it at the expense of BE, and returns the request for the ledger |
| `RdtQuantity.Resource.RemovePod` | pkg/scheduler/rdt-quantity/resource.go:145-162 | succeeds exactly if some class lists the pod, removes it there, and returns an emptied class to BE |
| `RdtQuantity.Resource.InitNodeStatus` | pkg/scheduler/rdt-quantity/handle.go:180-234 | adds every pod of the ledger that holds this resource, each once, in some order |
| `RequestMerge.GroupingIrrelevant` | pkg/scheduler/blockio/handle.go:48-89 | the same requests per device, in any order and grouping into batches, merge to requests that mean the same |
| `RequestMerge.MergeAllSums` | pkg/scheduler/blockio/handle.go:48-89 | a merged request is guaranteed if any part is, and reads the sum on each of the eight bandwidths and four raw operation counts |
| `RequestMerge.FoldedIsMerged` | pkg/scheduler/blockio/handle.go:328-379 | after any batches a device holds the merge of its own requests, and nothing else |
| `RequestMerge.PodRequests.AddPodRequest` | pkg/scheduler/blockio/handle.go:48-89 | merges a batch into the map, device by device |
| `MappingRatios.FindMappingRatio` | pkg/utils.go:310-326 | finds the entry that `FindsLargestBelow` characterises |
| `MappingRatios.FindsLargestBelow` | pkg/utils.go:310-326 | in a sorted table that is the largest block size not above the one asked for, or the smallest one; in an empty table it is 32000 at a ratio of 1 |
| `VolumeRequests.GetDeviceRequest` | pkg/scheduler/blockio/handle.go:985-1063 | converts the four throughputs of a volume, with the code's defaults and minimums |
| `VolumeRequests.RequestsAreRaised` | pkg/scheduler/blockio/handle.go:985-1063 | a volume is best effort exactly if nothing could be parsed; otherwise each of the twelve numbers is what its own annotation costs on its own side of the device, at the table entry for its block size, but at least that side's minimum, with the code's values for what is missing and for the raw numbers of a raised amount |
| `VolumeRequests.RawMatchesIff` | pkg/scheduler/blockio/handle.go:1045-1050 | written bandwidth times the ratio is device bandwidth exactly if the annotation is not below the minimum or both minimums are equal: the minimum for reading is used on the write side too |
| `VolumeRequests.RaisedWriteMismatch` | pkg/scheduler/blockio/handle.go:1045-1050 | the raised write request on which it fails |
| `VolumeRequests.GetVolumeRequestFromAnno` | pkg/scheduler/blockio/handle.go:943-983 | each device carries the sum of what its volumes ask, whatever order they are walked in; a pod without volumes is best effort on the emptyDir disk |
| `VolumeRequests.VolumesGiveAdmissibleRequests` | pkg/scheduler/blockio/handle.go:1041-1061 | requests made from any volumes with any annotations, however batched, are sound and raised to every device's minimum, as the runs of the scheduler require |
| `VolumeRequests.MadeRaised` | pkg/scheduler/blockio/handle.go:943-983 | what the volumes of a device ask together is a proper request for it, at least its minimum if guaranteed |
| `Packer.PackingSound` | pkg/scheduler/blockio/bp.go:145-186 | with distinct claims, success means every volume is on the first disk that could take it at that point, and no disk gives more than it had of space, of read bandwidth at its table for reading, of write bandwidth at its table for writing, or of both together |
| `Packer.CanFitIsAdmission` | pkg/scheduler/blockio/bp.go:36-56 | the packer's test is the scheduler's admission test on what is left of the disk |
| `PackedRequests.TakenIsAskedIff` | pkg/scheduler/blockio/handle.go:404-424 | what the packer takes for a volume is never more than the pod is charged for it, and the same exactly if nothing was said about it, or both requests are given and not below the minimum |
| `PackedRequests.ChargedIsTakenIff` | pkg/scheduler/blockio/handle.go:361-372 | on a disk the pod is charged what the packer took exactly if every volume placed there is of that kind |
| `PackedRequests.PackedIsCovered` | pkg/scheduler/blockio/handle.go:328-379 | then a disk that got a guaranteed volume passes the bandwidth test of CanAdmitPod, together with what bound volumes ask of it |
| `PackedRequests.OnlySpaceRefuses` | pkg/scheduler/blockio/handle.go:127-149 | then only the space can keep the pod off that disk |
| `PackedRequests.SmallVolumeRaised` | pkg/scheduler/blockio/handle.go:1041-1044 | a volume below the minimum is packed, and the pod is then refused |
| `PackedRequests.HalfGivenVolume` | pkg/scheduler/blockio/handle.go:404-424 | a volume with a request for reading only is packed as best effort, and the pod is then refused |
| `PackedRequests.GetRestVolumes` | pkg/scheduler/blockio/handle.go:382-442 | a volume is guaranteed to the packer exactly if both its requests could be parsed |
| `Packer.SuccessIff` | pkg/scheduler/blockio/bp.go:181-183 | success is reported exactly if every unplaced volume has the claim of an earlier placed one |
| `Packer.SuccessPlacesAll` | pkg/scheduler/blockio/bp.go:181-183 | with distinct claims that is exactly if all volumes are placed |
| `Packer.SharedClaimHidesFailure` | pkg/scheduler/blockio/bp.go:181-183 | two volumes of one claim: success with one of them unplaced |
| `Packer.FirstFitFits` | pkg/scheduler/blockio/bp.go:164-179 | the chosen disk fits and none before it does; none is chosen only if none fits |
| `Packer.PackingCovered` | pkg/scheduler/blockio/bp.go:34-70 | placed volumes are paid out of their disk, which is never overdrawn |
| `Packer.FirstFitPacker.Pack` | pkg/scheduler/blockio/bp.go:145-186 | takes volumes by bandwidth times size and disks by guaranteed bandwidth, largest first, and packs first-fit until a volume has no allocated claim; then it returns nothing, and the disks keep what was placed before that volume |
| `Packer.StorageRequests` | pkg/scheduler/blockio/resource.go:304-314 | per disk the space of the claims that are not reused, and no entry for other disks |
| `Packer.GetRestDisksStatus` | pkg/scheduler/blockio/handle.go:444-469 | each disk less the guaranteed request on it and the space of new claims |
| `PackedRequests.RestLeaves` | pkg/scheduler/blockio/handle.go:444-469 | the disk handed to the packer has the bandwidth and the space that bound volumes leave |
| `Packer.SpaceCheckIff` | pkg/scheduler/blockio/handle.go:117-137 | after packing, also of volumes that share a claim, the space check on the cached disks fails exactly on disks that got no volume and are over-committed already |
| `Packer.SpaceAtMostTaken` | pkg/scheduler/blockio/bp.go:164-186 | also when volumes share a claim, the space AdmitPod asks of a disk is at most what the packer took from it |
| `Packer.SharedClaimCountsOnce` | pkg/scheduler/blockio/bp.go:164-186 | two volumes of one claim on two disks: the first disk pays for a volume that no claim asks of it |
| `Packer.OverCommittedRefused` | pkg/scheduler/blockio/handle.go:117-137 | an over-committed disk refuses a pod that asks for no space |
| `EventBuffer.NothingLost` | pkg/agent/dataengine.go:39-62 | in every run, with handlers that set any flags, each submitted event has run, or waits for a flag that is not set |
| `EventBuffer.SetFlagFaithful` | pkg/agent/dataengine.go:39-57 | a call loses no waiting event and runs all that are now permitted, however handlers re-enter it; re-entry ends because unset bits run out |
| `EventBuffer.ExactlyOnceIffQuiet` | pkg/agent/dataengine.go:39-57 | raising a flag runs no event twice exactly if no replayed handler asks for a missing flag, and then runs the permitted ones in arrival order |
| `EventBuffer.EachExactlyOnce` | pkg/agent/dataengine.go:39-88 | in every run in which handlers of buffered events set no flags, each permitted event runs exactly once and each other is buffered exactly once |
| `EventBuffer.NestedReplayRunsTwice` | pkg/agent/disk/engine.go:354-394 | a buffered profile event that sets its own flag runs twice |
| `EventBuffer.IoEngine.SetFlag` | pkg/agent/dataengine.go:39-57 | raises the flags and replays a snapshot of the buffer, which then becomes what could not run |
| `EventBuffer.IoEngine.HandleEvent` | pkg/agent/dataengine.go:81-88 | runs an event whose flags are set and buffers any other |
| `Rendezvous.CallsWithinRequests` | pkg/agent/disk/engine.go:480-552 | over every interleaving a pod is registered at most as often as the runtime ran it and as lists had it, and unregistered at most as often as the runtime stopped it and as lists lacked it |
| `Rendezvous.AlwaysRegisterFirstIff` | pkg/agent/disk/engine.go:480-585 | whatever lists come in between, every UnRegister is preceded by a Register exactly if the runtime does not stop the pod before it runs |
| `Rendezvous.NeverExceedsIff` | pkg/agent/disk/engine.go:507-510 | a pod is never unregistered more often than registered exactly if, besides, the runtime stops it at most once |
| `Rendezvous.UnregisteredTwice` | pkg/agent/disk/engine.go:507-510 | the interleaving in which a second stop unregisters the pod again, because the request to run was deleted with the entry |
| `Rendezvous.NothingRepeated` | pkg/agent/disk/engine.go:480-552 | RegisterPod for other pods does nothing to a pod |
| `Rendezvous.UnregistersIff` | pkg/agent/disk/engine.go:480-552 | an event unregisters a pod exactly if by then, since the pod was last unregistered, a list lacked it while it had an entry, the runtime stopped it and a list gave it devices |
| `Rendezvous.ListedUnregistersIff` | pkg/agent/disk/engine.go:716-724 | a pod that the last list has is unregistered exactly if an earlier list lacked it while it had an entry and the runtime has stopped it, with no unregistering since |
| `Rendezvous.ListedPodUnregistered` | pkg/agent/disk/engine.go:504-511 | the events after which a pod on the last list is unregistered: run, a list without it, a list with it, stop |
| `Rendezvous.RegisteredWith` | pkg/agent/disk/engine.go:515-522 | a pod is registered under the cgroup of the last runtime event about it, on the devices of all lists since it was last unregistered |
| `Engine.RegisteredUnderPath` | pkg/agent/disk/engine.go:554-583 | that is the path of its last runtime event outside system namespaces, below /sys/fs/cgroup |
| `Engine.SystemPodsLeftAlone` | pkg/agent/disk/engine.go:562-566 | nothing is ever called about a pod whose runtime events are all of system namespaces |
| `Engine.TablesHold` | pkg/agent/disk/engine.go:521-534 | over every history, a slot that the last list enters is in the tables, as that list says, exactly if the pod was not unregistered from that list on |
| `Engine.ListedPodMissingIff` | pkg/agent/disk/engine.go:504-534 | over every history, a pod of the last list is missing from the tables exactly if a list before it lacked the pod and the runtime then stopped it |
| `Engine.DiskEngine.RegisterPod` | pkg/agent/disk/engine.go:480-552 | for every pod, uses up the operations both sources asked for, with one call each; a stopped pod loses its entry and leaves the tables, and each operation is followed by a report of the tables under the last list's generation |
| `Engine.DiskEngine.ProcessNriData` | pkg/agent/disk/engine.go:554-588 | keeps the engine in the state its history of events determines: notes the runtime's operations of pods outside system namespaces, and registers |
| `Engine.DiskEngine.ProcessDiskCrData` | pkg/agent/disk/engine.go:663-726 | keeps the engine in the state its history determines: enters events of profiled devices and named pods, deletes pods that were not visited, notes devices and a run request of listed pods and a stop request of all others, and registers |
| `Engine.DiskEngine.DeleteOutdatePod` | pkg/agent/common/workload.go:81-112 | keeps exactly the entries of visited pods |
| `Bandwidth.GuaranteedGetRequest` | pkg/agent/common/workload.go:177-199 | with non-negative requests and enough bandwidth, GA limits are the requests |
| `Bandwidth.BurstableGetRequest` | pkg/agent/common/workload.go:177-199 | BT pods get at least the smaller of request and limit and at most their limit |
| `Bandwidth.BurstableGetPortion` | pkg/agent/disk/engine.go:794-804 | what GA requests leave outside the BE pool is divided among BT pods in proportion to their requests, each up to its own limit |
| `Bandwidth.BurstableAskingNothing` | pkg/agent/disk/engine.go:794-804 | if BT pods ask for nothing together, each gets nothing |
| `Bandwidth.NothingSpareIff` | pkg/agent/disk/engine.go:760-804 | GA and BT limits add up to exactly capacity less the BE pool exactly if no BT pod is held back by its own limit |
| `Bandwidth.GuaranteedToldIff` | pkg/agent/disk/engine.go:782-792 | GA limits are the requests exactly if something is asked for or bandwidth is left |
| `Bandwidth.KeptOtherwise` | pkg/agent/common/workload.go:114-175 | with another policy, or nothing to divide, every pod keeps the limit it has |
| `Bandwidth.LimitsOutsideBePool` | pkg/agent/disk/engine.go:760-804 | GA and BT limits together stay within capacity less the BE pool |
| `Bandwidth.BestEffortSharesRest` | pkg/agent/disk/engine.go:806-821 | BE limits are equal and add up to exactly capacity less GA requests less the larger of BT requests and BT actual |
| `Agreement.BurstableGetPortion` | pkg/agent/disk/engine.go:744-837 | on the tables of a list: BT pods divide, in proportion to the annotated requests and up to the annotated limits, what the list's GA pods leave outside the BE pool |
| `Agreement.BestEffortShareRest` | pkg/agent/disk/engine.go:806-821 | on the tables of a list: BE pods share what GA pods asked for, and BT pods asked for or use, leave of the disk |
| `Bandwidth.FloorsIdle` | pkg/agent/common/disk.go:78-80 | for pods that ask for at least the minimum the per-pod floor changes no GA or BT limit |
| `Bandwidth.BestEffortFloorIff` | pkg/agent/common/disk.go:78-80 | the floor leaves BE limits alone exactly if an equal share is no less than the minimum |
| `Bandwidth.BestEffortFloored` | pkg/agent/common/disk.go:78-80 | two BE pods whose equal shares are raised, so that together they may read more than the disk can |
| `Bandwidth.AdmittedBestEffortNotFloored` | pkg/agent/common/disk.go:78-80 | it is, if BT pods stay within their requests and the pool holds every BE pod's minimum |
| `Bandwidth.CalDiskAllocatable` | pkg/agent/disk/engine.go:744-837 | reports what is left outside the BE pool, and the BE pool with read and write exchanged; never reports pressure; and sends the limits of all groups, raised to the minimum of a pod |
| `Bandwidth.ReportedPoolIff` | pkg/agent/disk/engine.go:778-780 | the exchanged BE numbers are right exactly if the pool is empty or the disk reads as fast as it writes |
| `Bandwidth.PoolReportedExchanged` | pkg/agent/disk/engine.go:778-780 | a disk that reads 100 and writes 50: the BE pool of 20 and 10 is reported as 10 and 20 |
| `Bandwidth.ComposeLimitData` | pkg/agent/common/workload.go:254-290 | every pod is sent its own limit, raised to the minimum, but PodsLimitSet holds one shared object, with the last pod's raised limit, for all |
| `Bandwidth.CalculateGroupBw` | pkg/agent/common/workload.go:58-67 | the sum over the group on each side |
| `Agreement.ReportCloseToRebuilt` | pkg/scheduler/blockio/handle.go:611-616 | on the same reservations the agent's GA numbers exceed the scheduler's rebuilt ones by at least 0 and less than 2 in each pool, and both count the same best-effort pods |
| `Agreement.RoundingAddsUp` | pkg/scheduler/blockio/handle.go:611-616 | both truncations count: of 101.99 at 99 per cent the agent has 100.9701 and the scheduler 99 |
| `Agreement.DeltasKeepReportClose` | pkg/agent/disk/engine.go:744-776 | so it stays over any number of delta lists, for the last list's pods less those unregistered since |
| `Agreement.CountedIsLoad` | pkg/scheduler/blockio/handle.go:519-534 | the agent's sums over its groups are the scheduler's sums over its ledger |
| `BlockSplit.ConvertData` | pkg/service/disk/server.go:858-886 | the buckets are non-negative, add up to the bandwidth, use only the sizes around the average, and stand for the operations exactly if the average is between 512 and 32768; without operations all goes to the last bucket |
| `BlockSplit.Mixture` | pkg/service/disk/server.go:888-902 | for an average strictly between two sizes both parts are positive and make up bytes and operations |
| `BlockSplit.SplitDetermined` | pkg/service/disk/server.go:858-886 | there is only one such split |
| `Annotation.RoundTripIff` | pkg/aggregator/server.go:190-226 | writing and reading back gives the same multiset of requests exactly if no two are for the same type and device; the same means type, class, device, the bandwidths of Request and Limit without operations, RawRequest and RawLimit whole, and zero for what is missing |
| `Annotation.ReadsAsNormal` | pkg/aggregator/server.go:190-226 | a request reads back in one way only |
| `Annotation.EntriesAreLast` | pkg/scheduler/util/common.go:391-446 | the annotation has an entry for a type and device exactly if a request is for them, and it says, number by number, what the last such request says |
| `Annotation.PodRequest2String` | pkg/scheduler/util/common.go:391-446 | fails on an empty list; otherwise writes every request that has a device, a later one replacing an earlier one |
| `Annotation.FormatPodRequest` | pkg/aggregator/server.go:190-226 | every entry once, in some order |
| `Annotation.ListsShow` | pkg/aggregator/server.go:190-226 | what is read shows each entry once, number by number, and nothing else |

## Left out

- Scheduler restart: the rebuild from pod annotations when a status resource already exists; runs start from a newly registered node.
- Several nodes, leader election between aggregators, adding and removing devices, and deleting nodes.
- Protocol: the numbers travel as the pods that were counted, not as bandwidths; `Counting`, `StatusRuns` and `Agreement` relate the two. Reading the observed generation and computing the numbers is one step, and a pod may be unregistered at any time. Statuses are compared as such, not by their 32-bit hashes.
- Scheduler.ResourceIo.Filter: only the block I/O handle is asked; pods of whitelisted namespaces, which pass, and unregistered nodes, which take only pods that are not critical, are not modelled.
- Ledger.ResourceIoContext.RemovePod: a pod that names another node is an error; with several nodes it would be looked up in that node's ledger.
- Ledger.ResourceIoContext.RunWorkerQueue: a failed item is put back at once; the delay before it counts again is not modelled.
- EventBuffer: which flags a handler sets is fixed when it starts, as a function of what has run before; errors of handlers are ignored, as in the code.
- Engine.DiskEngine.RegisterPod: metrics are not modelled, and the lock is held throughout; the code gives it up while it carries out an operation.
- PodLists.Agent.ProcessPodsFromAggregator: only the events for the disk engine; network and RDT events are made in the same loop.
- Engine.DiskEngine.DeleteOutdatePod: ActualPods and PodsLimitSet are pruned like the request tables, and PodName is not pruned; neither is kept.
- Bandwidth: the conversion of a limit into operations per second and text, and the group limit of network devices.
- Bandwidth.CalculateGroupBw: the sum of TotalBps, which only metrics use.
- Packer: volumes and claims are values, so the in-place order of the caller's slice and the written TransRead and TransWrite are not kept; that the caller's disks are unchanged holds by construction.
- RequestMerge: a request stored in the map is a copy, so a later merge does not show in the batch it came from.
- VolumeRequests: GetRequestByAnnotation as one method; its steps are modelled one by one and meet in `PackedRequests.PackedIsCovered` and `Packer.SpaceCheckIff`.
- DiskCache: scores (NodePressureRatio) and claim phase changes (UpdatePVC).
- Network I/O and the plain RDT resource, on both sides: the same accounting with one device or almost no state.
- Watchers, gRPC, certificates, persistence, eBPF and cgroup access, metrics and configuration parsing.
