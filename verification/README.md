# Verification of the RDMA transfer engine

A Dafny model of the transfer engine's hard parts, and proofs of what every run of them keeps. `dafny verify
dfyconfig.toml` checks everything.

Five parts are modelled.

- **The fabric worker** (the `Worker` modules and `FabricWorker`). One loop owns every transfer. It is a state machine
  whose steps are the loop's moves with the environment's answers (a post is taken, refused or answered EAGAIN; the
  clock only moves on) and the moves of submitting threads, of the pool and of libfabric, which ends posted operations
  in any order, well or badly, onto a completion queue it may also fail to let be read. `WorkerInvariant` is what
  holds between any two steps; the theorem files say what that means over whole runs: exactly-once delivery, outcomes
  and their causes, retries timed from the first EAGAIN, exact counters, removals that neither fire early nor leak,
  the quiesce read's ordering, bounds on everything held back, and that the worker returns. `FabricWorker` is the loop
  itself, updating its queues, tallies and peers in place; each method names the steps it takes, the object keeps its
  run so far as one of the machine's, and a step's guard is the loop's own condition, so a pass that skipped part of
  its queue, or left a completion it could have reaped, could not take the step that ends it. Each theorem about runs
  is then about the loop.
- **The peer address table** (`AddressTable`, `AddressBooks`, `PeerAddresses`). The owning map, the non-owning index,
  the reference counts and the provider's vector, updated in place, refine a map from client to bound address. The
  worker's machine and its class both use that table, so `WorkerPeers` and `WorkerHandles` can say when the handle of
  an operation in flight stays in the vector.
- **The registration cache** (`RegionMaps`, `RegionCache`, `LocalRegions`, `RegionProtocol`, `RegionSafety`,
  `RegionFreshness`, `RegionDomains`). The registry and one endpoint's path into it as classes, and a machine that
  interleaves every endpoint, the allocator's hooks and the drops that follow an unlock one atomic step at a time,
  with registering and caching as separate steps, and invalidating and reclaiming too.
- **Two handoffs** (`Reply`, `FutureCell`). One step per lock acquisition, notification, release and wake.
- **The module's commit path** (`Transfers`, `Commands`, `Shutdown`). Requests built from commands, the deliveries of
  every device's worker, in any interleaving, applied to one keyspace, one reply per blocked client, the choice of a
  device, and what closing every channel comes to.

Several promises turned out to hold only under a condition, which is proved exact.

- `CacheableSpan`'s documentation asks a context only to invalidate its span before reclaiming any of it. For every
  span wider than its operand there is a run in which the part beside the operand is invalidated and reclaimed between
  the registration and its caching, and a stale registration is cached (`RegionFreshness.WiderSpansGoStale`). The
  cache stays fresh in every run exactly when spans are operands (`RegionFreshness.FreshExactlyWhen`), as the module's
  are.
- All runs keep `in_flight` within the cap exactly when writes are not quiesced, the progress deadline is zero, or the
  cap is (`WorkerCap.CapIsKeptExactlyWhen`). Otherwise nothing bounds it (`WorkerCapRun.ExcessIsUnbounded`): writes
  whose quiesce reads wait out EAGAIN leave their room to others, and the reads are then posted in one pass with no
  cap check. First-phase operations never exceed the cap.
- An operation's handle stays in the address vector, from its post on, exactly while every step leaves it a holder
  (`WorkerHandles.HandleStaysExactlyWhile`). A client that readvertises other bytes while it has an operation in
  flight may take the last one away (`WorkerHandleRuns.ReadvertisingPullsTheHandle`), and so may the removal of a
  client that still shared the entry (`WorkerHandleRuns.RemovalPullsTheHandle`). Callers that give each client, and
  each slot, one address never do (`WorkerPeers.OneAddressPerClientSuffices`).
- An endpoint closes its domain when its worker has returned, but the pool may still hold transfers it reaped. Their
  leases close after the domain (`RegionDomains.LeaseCanOutliveItsDomain`); none does exactly if the pool is done with
  that domain and no clone taken out of the registry is still to be dropped
  (`RegionDomains.NoneOutlivesItsDomainExactlyWhen`).
- The registry's lookup inspects only the nearest base, so it is complete exactly without nesting
  (`RegionMaps.LookupIsCompleteExactlyWhen`).

Conventions. A transfer is numbered by its place among the requests the worker received. `trail` is what libfabric saw
of it. The checksum of a transfer's payload is an uninterpreted function of its number. Fields such as `moves`,
`progress`, `departed`, `asked`, `owner`, `places`, `sent` and `handed` only watch. A waker is named by whom it wakes,
so one that would wake the same poller is equal to it.

## Model

| member | source | states |
|---|---|---|
| WorkerTheorems.RunKeepsInvariant | crates/dma-libfabric/src/server_dma_worker.rs:86-340 | the worker's whole invariant holds in every state of every run |
| WorkerTheorems.StepKeepsInvariant | crates/dma-libfabric/src/server_dma_worker.rs:86-340 | every step of the loop or its environment, with any answer, keeps that invariant |
| WorkerTheorems.ExactlyOnce | crates/dma-libfabric/src/server_dma_worker.rs:86-340 | in every state each received transfer is in exactly one of the nine places, once, and no two delivered completions are of one transfer; each completion is of the request it names |
| WorkerTheorems.StopLeavesNothing | crates/dma-libfabric/src/server_dma_worker.rs:323-339 | when the loop returns every queue, count and waiting removal is empty, so the shutdown's leftover list is; every transfer received is delivered or a job of the pool, and delivered once the pool is done |
| WorkerTheorems.ParkStrandsNothing | crates/dma-libfabric/src/server_dma_worker.rs:272-316 | whenever the loop blocks on its channel nothing is pending, posted, batched or waiting for removal, and the shared tally is what is still on its way in |
| WorkerTheorems.DepartedEntriesAwaitTheirLast | crates/dma-libfabric/src/server_dma_worker.rs:388-403 | a client gone with nothing sent since keeps its address entry only while it has an operation outstanding and a removal waits for the last of them |
| WorkerTheorems.ReleaseComesAfterTheLast | crates/dma-libfabric/src/server_dma_worker.rs:405-428 | a step takes a client's entry only by an advertisement over it or with none of its operations outstanding |
| WorkerTheorems.StepKeepsTallies | crates/dma-libfabric/src/server_dma_worker.rs:370-428 | one step moves, adds or finishes operations so that places, per-client counts and the work bound stay exact |
| WorkerAccounts.StepCounts | crates/dma-libfabric/src/server_dma_worker.rs:379-380 | only intake raises and only finishing lowers a client's count, by one, and a count at zero is not kept |
| WorkerAccounts.StepKeepsRemovals | crates/dma-libfabric/src/server_dma_worker.rs:388-428 | removals wait only for clients with a count, and a departed client's entry only for its removal |
| WorkerAccounts.StepKeepsPeers | crates/dma-libfabric/src/server_dma_worker.rs:86-340 | the peers stay one entry a slot and a handle through every step |
| WorkerSteps.StepTracks | crates/dma-libfabric/src/server_dma_worker.rs:86-340 | each step's exact effect on where one transfer is, how many operations one client has, and the work left |
| WorkerControl.StepKeepsInFlight | crates/dma-libfabric/src/server_dma_worker.rs:140-175 | in_flight is the operations posted and not yet reaped |
| WorkerControl.StepKeepsOutstanding | crates/dma-libfabric/src/server.rs:208-225 | the shared tally is submits between add and send, transfers in the channel and operations unfinished |
| WorkerControl.StepKeepsPipeline | crates/dma-libfabric/src/server_dma_worker.rs:127-163 | operations of the first phase never exceed the cap; with quiescing off nothing does |
| WorkerControl.StepKeepsProductive | crates/dma-libfabric/src/server_dma_worker.rs:86-321 | with room for one operation, a pass that moved, retried and polled nothing has nothing left |
| WorkerControl.StepKeepsSettled | crates/dma-libfabric/src/server_dma_worker.rs:256-317 | completions wait only while passes are counted, and nothing is held at a park or a stop |
| WorkerControl.StepKeepsBatch | crates/dma-libfabric/src/server_dma_worker.rs:256-259 | the checksummed batch stays below the target outside the stretch from dispatch to flush |
| WorkerTraces.StepKeepsTraces | crates/dma-libfabric/src/server_dma_worker.rs:86-340 | every queue's transfers keep the history their place implies |
| WorkerTraces.BackIsHonest | crates/dma-libfabric/src/server_dma_worker.rs:668-686 | a completion made from a reaped transfer is a success exactly when its last event is a good completion, and a completion error exactly when that is a bad one; a success has its whole history behind it |
| WorkerOutcomes.OutcomeIsWhatHappened | crates/dma-libfabric/src/server_dma_worker.rs:165-216 | over every run and for every completion: done exactly if libfabric completed it, and its read back when it must be; a completion error exactly if libfabric ended it badly; refused at intake exactly for no operand, a short one, or a range past the address space |
| WorkerOutcomes.FailuresHaveTheirCause | crates/dma-libfabric/src/server_dma_worker.rs:127-163 | over every run no failure is without its step: intake refused it, an attempt to post it was answered that way, a stall only at its first EAGAIN plus the deadline or later, or libfabric ended it badly |
| WorkerOutcomes.ArrivalsAreQueuedOrRefused | crates/dma-libfabric/src/server_dma_worker.rs:711-786 | a transfer taken off the channel joins the back of the queue whole and unposted, or fails at once exactly when intake has a reason to refuse it |
| WorkerOutcomes.HashingStaysOffTheLoop | crates/dma-libfabric/src/server_dma_worker.rs:205-215 | what the loop completes inline wanted no checksum, and what the pool is given wanted one |
| WorkerStalls.AttemptsMeetTheirFate | crates/dma-libfabric/src/server_dma_worker.rs:127-254 | over every run and for both queues, each attempt to post comes to what its answers say: failed for its peer, its registration or a refusal, libfabric's, or after EAGAIN back in its queue stamped with its first one, unless the clock has reached that plus the deadline, and then failed as stalled |
| WorkerStalls.StampIsTheFirstStall | crates/dma-libfabric/src/server_dma_worker.rs:141-147 | whatever waits is stamped with the clock at its own first EAGAIN in that queue, told by the run's answers |
| WorkerPolls.ReapedAsEnded | crates/dma-libfabric/src/endpoint.rs:288-319 | every operation libfabric ended was reaped with its own result, in the order they ended, or is ready still; nothing else was reaped |
| WorkerPolls.PollsTakeWhatIsReady | crates/dma-libfabric/src/endpoint.rs:288-319 | a poll ends with nothing ready, ten taken, or a read of the queue that libfabric failed |
| WorkerTraces.QuiescedIsOnRead | crates/dma-libfabric/src/server_dma_worker.rs:462-505 | the quiesce read goes to the write's own address and key, at its last byte |
| WorkerTraces.PostedIsOnFirst | crates/dma-libfabric/src/server_dma_worker.rs:567-584 | a posted write hands its address to its quiesce read |
| WorkerBounds.SuccessIsProven | crates/dma-libfabric/src/server_dma_worker.rs:189-216 | a delivered success is whole, was completed by libfabric, was read back at remote_address + length - 1 after completing if it had to be quiesced, and has a checksum exactly when one was asked for |
| WorkerBounds.DeliveryIsFinal | crates/dma-libfabric/src/server_dma_worker.rs:261-270 | delivered completions and received requests only ever grow |
| WorkerBounds.NothingSaturates | crates/dma-libfabric/src/server_dma_worker.rs:505-516 | no subtraction in the loop ever has to stop at zero |
| WorkerBounds.InFlightCap | crates/dma-libfabric/src/server_dma_worker.rs:590-600 | the cap is positive, never above a fixed transmit queue, and otherwise the configured value, 64 by default |
| WorkerBounds.PipelineStaysBounded | crates/dma-libfabric/src/server_dma_worker.rs:127-175 | over every run, first-phase operations stay within the cap and in_flight is exactly what libfabric holds |
| WorkerCap.CapIsKeptExactlyWhen | crates/dma-libfabric/src/server_dma_worker.rs:218-254 | all runs keep in_flight within the cap exactly when the cap is zero, writes are not quiesced, or the progress deadline is zero |
| WorkerCap.CapIsKept | crates/dma-libfabric/src/server_dma_worker.rs:218-254 | under any of the three, in every state of every run |
| WorkerCapRun.ExcessIsUnbounded | crates/dma-libfabric/src/server_dma_worker.rs:218-254 | otherwise, for every number, a run with more than that in flight: stalled reads pile up and are posted in one pass |
| WorkerBounds.HoldingIsShort | crates/dma-libfabric/src/server_dma_worker.rs:261-268 | between two deliveries at most ten passes hold completions back |
| WorkerBounds.BatchesStaySmall | crates/dma-libfabric/src/server_dma_worker.rs:256-270 | fewer than ten transfers await a checksum after each flush check, a reap takes at most ten, and passes are counted only while a completion waits |
| WorkerBounds.MovesAreBounded | crates/dma-libfabric/src/server_dma_worker.rs:127-254 | posts, reaps and failures are at most eight for each transfer received |
| WorkerBounds.NeverStuck | crates/dma-libfabric/src/server_dma_worker.rs:86-317 | the loop can always step unless it has returned or is parked on an open empty channel |
| WorkerHistory.DepartedExactlyWhen | crates/dma-libfabric/src/server_dma_worker.rs:392-403 | the departed clients are those whose removal was received with nothing from them since |
| WorkerHistory.RemovalNeverLeaks | crates/dma-libfabric/src/server_dma_worker.rs:405-428 | over every run, after a client's removal with nothing from it since, its entry is kept only by an outstanding operation with a removal waiting, and its last operation leaves none |
| WorkerHistory.RemovalNeverFiresEarly | crates/dma-libfabric/src/server_dma_worker.rs:390-403 | over every run, a client with an operation outstanding loses its entry only to an advertisement |
| WorkerHistory.FlushesExactlyWhen | crates/dma-libfabric/src/server_dma_worker.rs:342-350 | the flush check hands the checksummed batch to the pool exactly when it has ten, or this pass posted and reaped nothing, or nothing is left to post or reap |
| WorkerHistory.KeepsExactlyWhen | crates/dma-libfabric/src/server_dma_worker.rs:261-270 | completions are kept for another pass exactly while there are fewer than ten and fewer than ten passes have kept any since the last handover; otherwise all are handed over, in order |
| WorkerLiveness.StepDescends | crates/dma-libfabric/src/server_dma_worker.rs:127-273 | once the channel is closed every step lowers the measure or was answered with nothing |
| WorkerLiveness.SomethingMoves | crates/dma-libfabric/src/server_dma_worker.rs:127-273 | if libfabric ends every operation posted, its queue fails to be read only so often and the clock passes every bound, something moves again |
| WorkerLiveness.WorkerReturns | crates/dma-libfabric/src/server_dma_worker.rs:272-273 | with its channel closed and room for one operation the worker returns, if libfabric ends every operation posted, its completion queue fails to be read only so often and the clock passes every bound |
| WorkerQueues.PatienceWearsOut | crates/dma-libfabric/src/server_dma_worker.rs:142-148 | as the clock moves on, a queue's total patience never rises |
| WorkerHandles.HandleSurvivesExactlyWhen | crates/dma-libfabric/src/peer_addresses.rs:192-242 | a handle in the vector is in it after a step exactly when the step advertises nothing, an unusable address, the handle's own bytes, or another slot while another client holds the entry; and, if it releases a client, when somebody besides that client holds it |
| WorkerHandles.HandleStaysExactlyWhile | crates/dma-libfabric/src/server_dma_worker.rs:67-72 | over every run, from an operation's post on, through its reap and beyond, the handle it was posted against is in the vector exactly while every step meets that condition |
| WorkerPeers.PeersMoveExactly | crates/dma-libfabric/src/server_dma_worker.rs:390-428 | a step changes the peers by what it advertises and by the one client it releases: a removal with nothing outstanding, or the last operation of a waiting removal |
| WorkerPeers.StepKeepsPinned | crates/dma-libfabric/src/server_dma_worker.rs:527-531 | while nobody readvertises over an operation in flight its client stays bound to the entry it was posted against |
| WorkerPeers.InFlightHandlesStay | crates/dma-libfabric/src/server_dma_worker.rs:67-72 | over every such run each posted handle stays in the vector until the operation is reaped, whoever shares it and whenever removals come |
| WorkerPeers.OneAddressPerClientSuffices | crates/dma-libfabric/src/server_dma_worker.rs:67-72 | callers that give each client one address, and a slot one address, meet that condition |
| WorkerHandleRuns.ReadvertisingPullsTheHandle | crates/dma-libfabric/src/peer_addresses.rs:203-225 | without it: for any two addresses, a run that ends with a write posted against a handle no longer held |
| WorkerHandleRuns.RemovalPullsTheHandle | crates/dma-libfabric/src/peer_addresses.rs:203-242 | for any two addresses, a run in which the client of a posted write moves to the other while a second client keeps its entry, and that client's removal then pulls the handle |
| WorkerPeers.NewlyPostedIsPinned | crates/dma-libfabric/src/server_dma_worker.rs:531-565 | an operation just posted was posted against the entry its client is bound to |
| FabricWorker.FabricWorker.constructor | crates/dma-libfabric/src/server_dma_worker.rs:61-83 | a fresh worker is the initial state |
| FabricWorker.FabricWorker.Run | crates/dma-libfabric/src/server_dma_worker.rs:34-340 | the loop keeps its run one of the machine's; returning or blocking, it holds nothing, and every transfer received is delivered or with the pool; it is unfinished only after as many turns as it was given |
| FabricWorker.FabricWorker.Pass | crates/dma-libfabric/src/server_dma_worker.rs:86-321 | one time round the loop ends at intake, parked or stopped |
| FabricWorker.FabricWorker.IntakePass | crates/dma-libfabric/src/server_dma_worker.rs:87-125 | the channel is drained, whoever else gets a turn |
| FabricWorker.FabricWorker.PostPass | crates/dma-libfabric/src/server_dma_worker.rs:127-163 | one pass over the pending queue, up to the cap |
| FabricWorker.FabricWorker.ReapPass | crates/dma-libfabric/src/server_dma_worker.rs:165-175 | what was ready is taken off the completion queue in order, each with its own result, up to ten; short of ten nothing ready is left unless the queue failed to be read |
| FabricWorker.FabricWorker.DispatchPass | crates/dma-libfabric/src/server_dma_worker.rs:189-216 | every reaped transfer is sent on |
| FabricWorker.FabricWorker.QuiescePass | crates/dma-libfabric/src/server_dma_worker.rs:218-254 | one pass over the writes waiting for their quiesce read |
| FabricWorker.FabricWorker.Accept | crates/dma-libfabric/src/server_dma_worker.rs:370-388 | intake of one transfer, in place |
| FabricWorker.FabricWorker.RemoveOrDefer | crates/dma-libfabric/src/server_dma_worker.rs:392-403 | the removal happens now or is left to the last operation |
| FabricWorker.FabricWorker.FinishOp | crates/dma-libfabric/src/server_dma_worker.rs:407-428 | one finished operation is accounted, firing a waiting removal with the last |
| FabricWorker.FabricWorker.FinishUnreaped | crates/dma-libfabric/src/server_dma_worker.rs:431-449 | an operation libfabric does not hold is failed |
| FabricWorker.FabricWorker.Post | crates/dma-libfabric/src/server_dma_worker.rs:527-586 | the verdict of one attempt, the peers after it, and what the vector, the registration and the post were asked and answered, each only after what comes before it went well |
| FabricWorker.FabricWorker.PostHead | crates/dma-libfabric/src/server_dma_worker.rs:131-162 | the head of the queue is posted, retried or failed |
| FabricWorker.FabricWorker.QuiesceHead | crates/dma-libfabric/src/server_dma_worker.rs:221-253 | the head of the waiting writes has its read posted, retried or failed |
| FabricWorker.FabricWorker.Sort | crates/dma-libfabric/src/server_dma_worker.rs:189-216 | where a reaped transfer goes |
| FabricWorker.FabricWorker.DueToFlush | crates/dma-libfabric/src/server_dma_worker.rs:256-257 | idleness and whether the batch is due |
| FabricWorker.FabricWorker.Deliver | crates/dma-libfabric/src/server_dma_worker.rs:261-270 | a short batch is held or the whole batch is delivered |
| FabricWorker.FabricWorker.Decide | crates/dma-libfabric/src/server_dma_worker.rs:272-317 | leave, park or come round |
| FabricWorker.FabricWorker.BeginSubmit | crates/dma-libfabric/src/server.rs:215-216 | the tally rises before the send |
| FabricWorker.FabricWorker.Close | crates/dma-libfabric/src/server.rs:297-305 | the server drops its sender |
| AddressTable.EntrySurvivesExactlyWhen | crates/dma-libfabric/src/peer_addresses.rs:192-236 | a live entry survives an advertisement exactly when the bytes are refused, are its own, or name another slot while someone else holds it |
| AddressTable.SameSlotExactlyWhen | crates/dma-libfabric/src/peer_addresses.rs:22-57 | on efa an address has 32 bytes and names the same endpoint slot when its first 18 agree, whatever its key; elsewhere any bytes do and only equal ones are the same |
| AddressTable.AdvertiseKeepsWellFormed | crates/dma-libfabric/src/peer_addresses.rs:187-236 | no two live entries share a slot or a handle, before a call or after |
| AddressTable.AdvertiseBinds | crates/dma-libfabric/src/peer_addresses.rs:187-236 | a successful call binds the client to exactly the bytes it advertised |
| AddressTable.AdvertiseKeepsOthers | crates/dma-libfabric/src/peer_addresses.rs:203-225 | nobody else's entry moves when the holders of a slot agree on its bytes |
| AddressTable.AdvertiseIsIdempotent | crates/dma-libfabric/src/peer_addresses.rs:203-211 | asking again for the same address changes nothing and asks the vector nothing |
| AddressBooks.VectorIsExactlyHeld | crates/dma-libfabric/src/peer_addresses.rs:113-156 | the address vector is exactly what some client is bound to |
| AddressBooks.CountIsSharers | crates/dma-libfabric/src/peer_addresses.rs:158-170 | an entry's strong count is the number of clients on it |
| AddressBooks.SweepingIsAmortised | crates/dma-libfabric/src/peer_addresses.rs:271-279 | the index stays within max(64, twice the most clients ever), and sweeps visit at most two keys for each insert |
| AddressBooks.LivingAreHeld | crates/dma-libfabric/src/peer_addresses.rs:273-279 | what a sweep keeps is no more than the clients |
| AddressBooks.EveryHandleIsHeld | crates/dma-libfabric/src/peer_addresses.rs:146-156 | no handle outlives its holders |
| PeerAddresses.PeerAddresses.constructor | crates/dma-libfabric/src/peer_addresses.rs:172-181 | a fresh table binds nobody |
| PeerAddresses.PeerAddresses.Handle | crates/dma-libfabric/src/peer_addresses.rs:187-236 | the three structures and the vector refine the map from client to bound address, through hits, recycled slots, refused inserts and sweeps; the vector is asked once, for bytes the provider takes and nobody holds, and otherwise not; the result is the handle the client is bound to |
| PeerAddresses.PeerAddresses.Release | crates/dma-libfabric/src/peer_addresses.rs:240-242 | only that client is unbound; the vector keeps an entry others hold |
| PeerAddresses.PeerAddresses.Clear | crates/dma-libfabric/src/peer_addresses.rs:246-249 | everything is unbound and the vector is empty |
| PeerAddresses.PeerAddresses.InsertAddress | crates/dma-libfabric/src/peer_addresses.rs:251-269 | asked only while the vector holds nothing at the bytes' slot, it refuses, or returns a handle it was not using |
| PeerAddresses.PeerAddresses.Sweep | crates/dma-libfabric/src/peer_addresses.rs:273-279 | the table is unchanged by a sweep, which leaves the index below its next threshold |
| PeerAddresses.PeerAddresses.DropClone | crates/dma-libfabric/src/peer_addresses.rs:146-156 | the last clone removes the address, once |
| PeerAddresses.PeerAddresses.EvictSlot | crates/dma-libfabric/src/peer_addresses.rs:213-222 | a recycled slot's stale entry goes with all its clients |
| RegionMaps.LookupIsSound | crates/dma-libfabric/src/region_cache.rs:98-110 | a hit is an extent that contains the operand |
| RegionMaps.UnnestedLookupIsComplete | crates/dma-libfabric/src/region_cache.rs:98-110 | without nesting the lookup finds what a scan would |
| RegionMaps.NestingHides | crates/dma-libfabric/src/region_cache.rs:103-108 | a nested extent hides the wider one |
| RegionMaps.LookupIsCompleteExactlyWhen | crates/dma-libfabric/src/region_cache.rs:98-110 | the lookup is complete exactly when no tracked extent is strictly nested in another |
| RegionMaps.InvalidationIsExact | crates/dma-libfabric/src/region_cache.rs:118-138 | an invalidation takes exactly the overlapping extents, and leaves none of the range covered |
| RegionCache.RegionCache.Track | crates/dma-libfabric/src/region_cache.rs:77-91 | the extent is cached over whatever was at its base, and the caller keeps its lease |
| RegionCache.RegionCache.Covering | crates/dma-libfabric/src/region_cache.rs:98-110 | the answer is the nearest entry's if that covers the operand, with a clone for the caller |
| RegionCache.RegionCache.Invalidate | crates/dma-libfabric/src/region_cache.rs:118-138 | on every domain exactly the overlapping extents leave, and leases are untouched |
| RegionCache.RegionCache.ClearDomain | crates/dma-libfabric/src/region_cache.rs:144-158 | exactly one domain's entries leave |
| RegionCache.RegionCache.Drop | crates/dma-libfabric/src/region_cache.rs:56-61 | a registration closes exactly when its last clone goes |
| RegionCache.RegionCache.Position | crates/dma-libfabric/src/region_cache.rs:166-174 | the domain's index, or that it has none |
| RegionCache.RegionCache.NearestBase | crates/dma-libfabric/src/region_cache.rs:103-107 | the greatest tracked base at or below the start |
| RegionCache.OpenExactlyWhileHeld | crates/dma-libfabric/src/region_cache.rs:16-29 | a registration is closed at most once, and exactly when nobody holds a clone |
| RegionCache.ViewAfterUpdate | crates/dma-libfabric/src/region_cache.rs:161-175 | replacing one domain's map changes that domain's part of the registry only |
| LocalRegions.LocalRegions.Operand | crates/dma-libfabric/src/local_regions.rs:50-100 | an operand in range that the cache covers gets that registration and asks for none; any other asks for the usable span, then for itself if that is refused, and is unregistered only when it was itself refused; the lease covers it, on this domain; only a span containing it is cached |
| LocalRegions.LocalRegions.RegisterFor | crates/dma-libfabric/src/local_regions.rs:79-87 | the span is asked for, and the operand only when the span was refused; every asking and its answer is told |
| LocalRegions.LocalRegions.Pin | crates/dma-libfabric/src/local_regions.rs:108-115 | a pinned span is registered once, as asked, and left to the registry alone, or was refused |
| LocalRegions.LocalRegions.Clear | crates/dma-libfabric/src/local_regions.rs:142-144 | the endpoint's domain leaves the registry |
| RegionProtocol.StepKeepsArcs | crates/dma-libfabric/src/region_cache.rs:16-61 | every interleaved step keeps the strong counts exact and closes at most once |
| RegionProtocol.StepKeepsOwners | crates/dma-libfabric/src/region_cache.rs:66-158 | every clone is the registry's, an operation's, or retired and about to be dropped |
| RegionProtocol.HitServes | crates/dma-libfabric/src/region_cache.rs:98-110 | a hit covers the operand on its domain and is open |
| RegionSafety.ClosedExactlyWhenReleased | crates/dma-libfabric/src/region_cache.rs:16-29 | over all interleavings a registration is closed once, exactly when the registry, retired clones and operations have let go |
| RegionSafety.DescriptorsStayOpen | crates/dma-libfabric/src/server_dma_worker.rs:567-584 | from lookup to completion an operation's registration is open, on its domain and covers its operand |
| RegionSafety.UncachedClosesBeforeCompletion | crates/dma-libfabric/src/server_dma_worker.rs:668-686 | a context handed to the completion hook was posted and later released, and in between flew, open, with the one clone and registration it was posted with; from the release on it holds no lease, and that registration, if never cached, is closed |
| RegionDomains.NoneOutlivesItsDomainExactlyWhen | crates/dma-libfabric/src/endpoint.rs:514-536 | when an endpoint closes its domain no registration of it is open exactly if the pool holds none of its transfers and every clone taken out of the registry has been dropped |
| RegionDomains.ClosedDomainsStayClear | crates/dma-libfabric/src/endpoint.rs:514-536 | a domain closed so never has an open registration again |
| RegionDomains.LeaseCanOutliveItsDomain | crates/dma-libfabric/src/server_dma_worker.rs:354-366 | otherwise: for any operand, a run in which a transfer still with the pool deregisters after its domain is closed |
| RegionSafety.StepKeepsServing | crates/dma-libfabric/src/local_regions.rs:50-100 | every clone serves its owner: the place it is cached at, or the operand it was taken for |
| RegionSafety.StepKeepsExclusive | crates/dma-libfabric/src/local_regions.rs:66-68 | a registration never cached has one clone |
| RegionFreshness.OperandSpansStayFresh | crates/module/src/transfer.rs:90-102 | with spans that are operands, nothing cached covers reclaimed pages and no leased operand loses one, over all interleavings with the hooks |
| RegionFreshness.StepKeepsFresh | crates/module/src/memory/extent_hooks.rs:157-200 | registering, caching, invalidating and reclaiming as separate steps keep that |
| RegionFreshness.ReclaimingStaysFresh | crates/module/src/memory/extent_hooks.rs:262-286 | a reclaim after its invalidation leaves everything cached fresh |
| RegionFreshness.WiderSpansGoStale | crates/dma-libfabric/src/operands.rs:47-60 | for every span wider than its operand, a run that caches a registration over reclaimed pages |
| RegionFreshness.FreshExactlyWhen | crates/dma-libfabric/src/operands.rs:47-60 | the cache stays fresh in every run exactly when contexts answer for no more than their operand |
| Reply.WaitReturnsWhatWasSent | crates/dma-libfabric/src/reply.rs:43-76 | wait returns Some(v) exactly when send(v) ran and None exactly when the answer was dropped unsent |
| Reply.NoLostWakeup | crates/dma-libfabric/src/reply.rs:22-76 | a sleeping caller is owed a wakeup by an end yet to act, and once that end is gone the next look returns |
| Reply.RunsAreShort | crates/dma-libfabric/src/reply.rs:61-76 | a run has at most seven steps and two for each spurious wakeup |
| Reply.RunKeepsHandover | crates/dma-libfabric/src/reply.rs:5-57 | the slot says what the worker's end has done until the caller returns |
| Reply.SentIsWhatRan | crates/dma-libfabric/src/reply.rs:43-47 | at most one value is ever sent |
| Reply.ReplySlot.Settle | crates/dma-libfabric/src/reply.rs:22-25 | the value is stored under the lock |
| Reply.ReplySlot.DropAnswer | crates/dma-libfabric/src/reply.rs:49-57 | an unanswered drop marks the slot and wakes |
| Reply.ReplySlot.Look | crates/dma-libfabric/src/reply.rs:61-76 | one turn of the wait loop |
| FutureCell.PendingPollsAreWoken | crates/dma-libfabric/src/asynchronous.rs:89-125 | if the last poll was pending and the future lives when delivery is over, its poller has been woken since and the next poll is ready |
| FutureCell.ContextEndsOnce | crates/dma-libfabric/src/asynchronous.rs:101-125 | at most one poll is ready; the context is handed over or dropped, once, and not before completion |
| FutureCell.WokenFuturesOwnTheCell | crates/dma-libfabric/src/asynchronous.rs:119-124 | the delivering thread has let the cell go before it wakes |
| FutureCell.RunKeepsAccounts | crates/dma-libfabric/src/asynchronous.rs:89-125 | every interleaving keeps the cell's holders and the context accounted |
| FutureCell.TransferCell.Poll | crates/dma-libfabric/src/asynchronous.rs:89-98 | the outcome is taken, or the poller's waker left |
| FutureCell.TransferCell.Forget | crates/dma-libfabric/src/asynchronous.rs:101-106 | the future's drop clears the waker |
| FutureCell.TransferCell.Deliver | crates/dma-libfabric/src/asynchronous.rs:109-118 | the outcome is left and the waker taken in one critical section |
| Transfers.KeysHoldTheLastVerifiedValue | crates/module/src/transfer.rs:359-387 | over all devices and any interleaving of their deliveries, a key holds the bytes of the last finished SET of that key that was whole, had the expected checksum and was stored; where there is none the key is untouched |
| Transfers.FinishCommits | crates/module/src/transfer.rs:286-387 | what a delivered completion's command comes to, whatever the keyspace holds by then: a value is stored only by a verified SET |
| Transfers.HonestSetIsWhole | crates/module/src/transfer.rs:469-509 | a successful SET has the requested length, and a checksum exactly when its client expects one, so the stand-in is never used |
| Transfers.HonestSetLanded | crates/module/src/transfer.rs:67-88 | a successful SET's landing buffer was allocated at intake, of the requested length |
| Transfers.RepliesTellTheOutcome | crates/module/src/transfer.rs:338-387 | every finished command's reply: a GET's length with the checksum if asked, a SET's after its checksum and store, a failure's reason |
| Transfers.RepliesFollowTheEvents | crates/module/src/transfer.rs:338-387 | a GET whose bytes were written, and read back if they must be, is answered with its length, a SET whose bytes were read by its checksum and store and never as failed, and a bad completion as such: exactly then |
| Transfers.RequestsAreTheirTokens | crates/module/src/transfer.rs:434-509 | what a worker receives is what its command's client asked for: that client, its advertised buffer, its direction, length and checksum |
| Transfers.CompletionsAreTheirTokens | crates/module/src/transfer.rs:250-275 | a completion is of the request its context was submitted with |
| Transfers.NobodyIsAnsweredTwice | crates/module/src/transfer.rs:250-275 | no blocked client is answered twice: not by two devices, by one device twice, or by a device and at once |
| Transfers.EveryClientIsAnswered | crates/module/src/transfer.rs:250-275 | once every worker has returned and the pool is done, every client ever blocked has been answered, by its device or at once |
| Shutdown.ClosedChannelsAnswerEveryone | crates/dma-libfabric/src/server_dma_worker.rs:272-339 | with every device's channel closed, in every future in which libfabric ends each posted operation, its completion queue fails only so often and the clock passes every bound, every worker returns and its pool runs dry, what was finished stays so, the rest can be finished, and whenever it has been, in whatever order, every client ever blocked has been answered |
| Shutdown.ClosedChannelOnlyDrains | crates/dma-libfabric/src/server_dma_worker.rs:87-125 | nothing enters a closed channel: what was received and what is still in it are together, in order, the same after every step |
| Commands.ModuleKeepsItsPromises | crates/module/src/transfer.rs:126-177 | the module beside all its devices' runs: each key holds the last verified value or is untouched, nobody is answered twice, and in the end everybody is |
| Commands.Module.Submit | crates/module/src/transfer.rs:512-522 | the client is blocked and its token is with that device's worker if its channel is still received from, and is otherwise answered at once; no key changes |
| Commands.Module.CompleteBatch | crates/module/src/transfer.rs:250-275 | a batch is applied in order after whatever happened before, and each of its clients answered |
| Transfers.SuccessMovedTheAdvertisedBuffer | crates/module/src/transfer.rs:434-450 | a command that succeeds moved its whole length between the server and exactly the advertised buffer: a GET by a write, a SET by a read |
| Transfers.ChosenIsOne | crates/module/src/transfer.rs:198-209 | only one device can be chosen |
| Transfers.ChosenIsLeast | crates/module/src/transfer.rs:198-209 | the chosen device's load is no more than any other's, and its rotated index no more than any as loaded |
| Transfers.BurstsSpread | crates/module/src/transfer.rs:126-128 | while devices are equally loaded successive choices go round all of them |
| Transfers.FirstIsZero | crates/module/src/transfer.rs:203-206 | with equal loads the choice is the device the rotation takes to zero |
| Commands.Module.LeastLoaded | crates/module/src/transfer.rs:198-209 | no device has less work outstanding than the chosen one, and none with as much a lesser rotated index |
| Commands.Module.DmaGet | crates/module/src/transfer.rs:393-465 | null for an absent key, an error past the capacity, else one token to the least loaded device, or an answer at once exactly if its worker is gone; the keyspace is unchanged |
| Commands.Module.DmaSet | crates/module/src/transfer.rs:469-509 | one token to the least loaded device, or an answer at once exactly if its worker is gone; the keyspace is unchanged |

## Left out

- The libfabric calls, endpoint opening, provider selection, address discovery and error texts: posts, reaps, inserts and registrations answer nondeterministically, errors are reasons.
- A completion with no context, at which a reap returns early: entries are assumed to name an operation that was posted, once. The provider's separate error queue is the one completion queue, in order; a read that fails takes nothing, and an entry it promised but could not give is such a read.
- CRC-32C itself: an uninterpreted function.
- The pool's threads and batching: a job is one transfer, finished and delivered once; a batch handed to one thread is delivered in some order.
- The `Register` message in the worker's intake: it answers its submitter and touches none of the worker's queues; the pinning it asks for is `LocalRegions.LocalRegions.Pin`.
- Reading the clock: one reading serves both the first stall and the elapsed time of an attempt.
- The region cache inside the worker's machine: a post's registration succeeds or fails there, and what it registers is the region modules' own machine.
- A send that fails because the worker is gone: the worker never drops its receiver while the machine runs; `Commands.Module.Submit` covers the module's side.
- FabricWorker.FabricWorker.Run: takes a bound on the turns it makes, since every method here terminates; that the loop returns without one is `WorkerLiveness.WorkerReturns`, about the machine. A channel nobody writes to ends it as `Blocked`.
- Unbounded integers: counts, lengths and generations do not wrap. Where the source checks a 64-bit overflow (the quiesced range, the operand's range, a pinned range) the check is modelled.
- The rotation counter's wrap-around after 2^64 choices.
- Reuse of a client's number after its removal, which the integration guide excludes.
- The registry's vector of domains is searched by a loop as in the source; a domain's tree of extents is a map, and the greatest base below a start is found by a loop over its keys.
- Closing the address vector and the endpoint's other objects after its peers and domain.
- jemalloc's own calls: an allocator reclaims only memory no live operand uses, and a hooked arena invalidates first; arenas that are not hooked answer for no span.
- Panics in hooks and poisoned locks; tracing spans; configuration; the text of replies.
- Replies of two batches interleaving outside the lock: each batch's replies follow its keyspace half at once, and nothing proved of replies depends on their order.
- `dma.hello`, the disconnect event that tells every worker to remove a client, address encoding and the example programs: easy members.
