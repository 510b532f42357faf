# DAQDB, modelled and verified in Dafny

DAQDB keeps key-value pairs in persistent memory first, moves them to NVMe devices in the
background ("offload"), and shards keys over nodes by range. This project models the parts
where its correctness is decided and proves what they promise over every run and every
input. `dafny verify dfyconfig.toml` checks all of it.

| files | component |
|---|---|
| `OffloadState`, `OffloadStages`, `OffloadAccounting`, `OffloadData`, `OffloadSteps`, `OffloadClients`, `OffloadTheorems` | the offload pipeline as a step system: clients, OffloadPoller, SpdkIoEngine, SpdkBdev and its device, FinalizePoller |
| `OffloadReads`, `OffloadCounter` | the same pipeline with the pieces of a reader's lookup and copy, and with the loads and stores of `ioBufsInUse`, as steps of their own |
| `OffloadRaces` | the same pipeline with clients that take no care of each other |
| `OffloadAnswers` | what clients are told, from the asking to the callback |
| `OffloadAllocation` | the allocator's contract, and the free list as an allocator that meets it |
| `OffloadRuns`, `OffloadWitnesses` | requests going through from idle rings, and concrete runs from the start |
| `ValueIndex`, `TrieNodes`, `TrieSize`, `ArTree` | the value-location state machine, and the 256-way trie that implements it in place |
| `PoolBucket`, `GeneralPool` | the growing ring buffer behind the object pools, and the 64-bucket pool with its stamps |
| `FreeList`, `Extents` | the linked LBA free list with its negative sentinel, and the device extents on top of it |
| `IoBuffers` | transfer sizes and DMA buffer classes |
| `DeviceState` | quiescing a device |
| `Jbod` | spreading values over devices and finding them again |
| `Routing`, `Cluster`, `Framing` | range routing, the cluster as one map, request messages |
| `BoundedBuffer`, `ReadyKeys` | the unread-index bounded buffer; the ready-key queue and Put's rollback |
| `Basics` | options, sequences without duplicates, paths of a step relation |

How the models are made:

- Code that updates objects in place is a class whose methods are proved against functions
  on values; the theorems are about those functions, over whole runs.
- Threads are steps, and anything may run in between two of them. In the pipeline every loop
  iteration of a `process` function and every completion is a step. A client's Put is three:
  reserving, writing the value, and making it visible with the ready queue's answer; a
  removal from memory, and the rollback of a Put, look the key up, hide it, and free its
  memory. Publishing an offload is three as well: freeing the memory, overwriting the
  pointer, changing the location.
  Steps are enabled by what the code tests. That everything a step dereferences exists is
  not assumed: a run may continue anywhere from a step that dereferences something missing,
  and `OffloadTheorems.InvAlways` proves that no run contains one.
- PMDK, SPDK and eRPC appear as what the code relies on: reservations that may fail, bounded
  FIFO rings, a device of bytes whose transfers may fail and leave anything behind, calls
  that are answered or not.
- Runs of the pipeline assume of clients (`Careful`) that a key that is being put or removed
  gets no other call, that it gets one offload at a time, and that it is removed, or put again
  (only while it is in memory), when no requests for it are under way. They also assume memory
  for a device address. Runs without these assumptions show what goes wrong otherwise
  (`OffloadRaces.TwoReservationsRun`, `OffloadWitnesses.SecondOffloadRun`,
  `OffloadWitnesses.RemovedKeyComesBackRun`, `OffloadWitnesses.NoAddressRun`).
- The LBA allocator that `doWrite` asks, lib/offload/OffloadLbaAlloc.cpp, is replaced by a
  contract: the space of a write overlaps nothing live and is at least as long as the value.
  `OffloadAllocation.FreeListMeetsContract` shows that the free list is one allocator that
  meets the first half when all values have one block count;
  `OffloadAllocation.TransferCoversValue` derives the second from the transfer sizes.

Where a promise does not hold of the code as written, the exact condition is proved, and a
concrete case shows the failure:

- `KVStore::Get` looks a key up and copies its memory later. That memory may be freed in
  between, and a Put may use it again, so a reader can return another key's bytes
  (`OffloadReads.OvertakenReaderRun`, `OffloadReads.RolledBackReaderRun`). Publishing frees
  the memory before it changes the location, so a lookup in between is led to memory that is
  gone even if nobody moves before the copy (`OffloadReads.WindowReaderRun`). The copy is
  right when the lookup takes its pointer outside that window and the memory is not freed
  before the copy (`OffloadReads.CopyIsRightUnlessFreed`); which steps free it is in
  `OffloadReads.FreedExactly` and `OffloadReads.HeldThroughoutIff`.
- Two clients may reserve one absent key, and both Puts succeed
  (`OffloadRaces.TwoReservationsRun`). A Put shows its own client's memory if and only if no
  other reservation of the key came in between, the key was not published, and the memory not
  freed (`OffloadRaces.PutShowsOwnIff`, `OffloadRaces.PutShowsBytes`).
- `ioBufsInUse` is a plain 32-bit counter changed by two threads and can lose updates
  (`OffloadCounter.LostUpdateRun`, `OffloadCounter.LostIncrementRun`). It is exact if and only
  if at every store the changes stored since its load add up to 0
  (`OffloadCounter.CounterExactIff`, `OffloadCounter.UndisturbedIff`). Lost increments raise
  the limit by as many (`OffloadCounter.LimitPlusShort`, `OffloadCounter.LimitIsExceeded`),
  and a counter that wraps, or lost as many decrements as the limit, stops the engine for good
  (`OffloadCounter.StuckWhen`, `OffloadCounter.StopsForGood`). Requests and bytes are right
  regardless (`OffloadCounter.SoundAlways`). A transfer rejected by a quiescing device also
  decrements it (`DeviceState.BuffersExactIff`, `DeviceState.RejectionWrapsCounter`).
- Publishing does not look whether there was memory for the device address
  (`OffloadWitnesses.NoAddressRun`, `ArTrees.ArTree.AllocateAndUpdateValueWrapper`).
- A completion into a full finalizer ring loses its request
  (`OffloadTheorems.LostIffFinalizerFull`, `OffloadWitnesses.LosingRun`); with no more
  unanswered requests than the ring holds nothing is lost
  (`OffloadTheorems.NothingLostWithinRing`).
- Transfers start at `blockSize * lba` with the value's own block count, so values of
  different block counts overlap for some LBAs (`Extents.TransfersDisjointIffUniform`,
  `Extents.TransfersClash`).
- The read buffer is too small exactly for block sizes above 4096
  (`IoSizes.ReadBufferCoversIff`), and the 32-bit mask in the alignment loses values of
  4 GiB and more (`IoSizes.WriteBufferCoversIff`).
- A free list over fewer than two LBAs serves nothing (`FreeListSpec.ServesIffTwoLbas`).
- A pool refuses its own objects exactly when they are 2^24 bytes or larger
  (`GeneralPools.GeneralPool.Put`).
- A key left in memory at a restart is stranded until a bare Put brings the old memory back
  (`ValueIndex.StrandedIffNoPut`, `ValueIndex.PutBringsBackOldMemory`); a Put is safe exactly
  when a reservation stands (`ValueIndex.PutIsSafeIff`).
- Of requests served one at a time, the cluster is one map if and only if none is unserved
  (`Cluster.ClusterIsOneMapIff`):
  a Put for which the owner has no memory or no ready-queue room, a remote Put of a present
  key, a remote Put larger than the request buffer, a remote Get larger than the answer
  buffer. A Put the owner cannot reserve ends the worker, and for worker 0 the process
  (`Cluster.EndedWorkerAnswersNothing`, `Cluster.DuplicatePutRun`).
- A mask of four bytes disowns exactly the keys whose fourth byte is 128 or more
  (`Cluster.FourByteMaskDisowns`, `Cluster.FourByteMaskOwns`); longer ones shift out of
  32 bits. Without a mask, the default, every node is a map of its own
  (`Cluster.NodeIsOneMapIff`).
- A key buffered in the request message is overwritten by requests in between
  (`Framing.BufferedKeyArrivesIff`, `Framing.InterleavedGetRedirectsPut`); so is a buffered
  value (`Framing.BufferedValueArrivesIff`, `Framing.PutRoundTripIff`).
- Colliding device hashes send reads elsewhere (`Jbod.ReadsFindAllIff`).
- Quiescing an aborted device with I/O outstanding reopens it (`DeviceState.AbortReopensIff`,
  `DeviceState.AbortedDeviceSubmits`), and no device is ever reported quiescent
  (`DeviceState.NeverReportsQuiescent`).
- A Put rolled back by a full ready queue takes away a key that was visible before
  (`ReadyKeys.RollbackIsInvisibleIff`, `ReadyKeys.RollbackLosesKeyRun`).

## Model

| member | source | states |
|---|---|---|
| OffloadTheorems.InvAlways | lib/offload/OffloadPoller.cpp:91-252 | In every run of clients, poller, engine, device and finalizer no step finds anything it dereferences missing, and the whole invariant (stages, buffer account, bytes) holds in every state |
| OffloadTheorems.OffloadIsInvisible | lib/core/KVStore.cpp:284-304 | At every moment of every run the visible keys are exactly those put and not removed, and each leads to the bytes put, in memory or on the device; the one exception is the key the finalizer is just publishing, which is still found in memory although its bytes are only on the device, and which leads nowhere once its pointer is overwritten |
| OffloadTheorems.PutInserts | lib/core/KVStore.cpp:174-187 | In every run a Put of reserved memory stores a key that was not stored, and what a lookup then finds under it is exactly what its client wrote, whatever other threads did since the reservation |
| OffloadReads.FreedExactly | lib/pmem/ARTree.cpp:556-594 | The memory of a key is given back by exactly these steps: the first one of publishing it, and the last one of taking it out, be it for a removal or for a Put rolled back by a full ready queue; every other step keeps the memory and its bytes |
| OffloadReads.HeldThroughoutIff | lib/core/KVStore.cpp:284-304 | Over any stretch of any run with readers, an address that holds a key's bytes holds them throughout if and only if no step in it gives that key's memory back in one of these ways |
| OffloadReads.CopyIsRightUnlessFreed | lib/core/KVStore.cpp:284-304 | Test, pointer, location and copy of a Get are steps of their own: in every run a reader that takes the pointer of a key in memory, outside the publishing of that key, copies exactly the bytes stored at that moment, unless that memory is given back before the copy |
| OffloadReads.OvertakenReaderRun | lib/core/KVStore.cpp:284-304 | A run from the start in which it was: the offload is finalized and the memory reserved again between a reader's lookup and its copy, and the reader of one key copies the bytes of another |
| OffloadReads.WindowReaderRun | lib/pmem/ARTree.cpp:556-594 | Why outside: a run from the start in which the whole lookup and the copy fall between the cancelling of a key's memory and its new location, nobody else moves in between, and the reader copies the bytes of another key |
| OffloadReads.RolledBackReaderRun | lib/core/KVStore.cpp:174-187 | The other way: a run from the start in which a Put of a key that is there finds the ready queue full, frees its memory between a reader's lookup and its copy, and the reader copies the bytes of another key |
| OffloadRaces.PutShowsOwnIff | lib/pmem/ARTree.cpp:516-549 | In every run, with any clients: when a Put is through, its key leads to the memory its client reserved, held all the while, if and only if since that reservation no other reservation of the key was made, granted or failed, the key was not published, and the memory was not given back |
| OffloadRaces.PutShowsBytes | lib/dht/DhtServer.cpp:121-147 | Then a lookup finds the bytes its client wrote, unless another client wrote to the same memory |
| OffloadRaces.StillLeadsIff | lib/pmem/ARTree.cpp:516-549 | Over any stretch of any run, with any clients, a key leads to an address that stays reserved if and only if it did at the start and no step overwrites its pointer or frees the address |
| OffloadRaces.TwoReservationsRun | lib/dht/DhtServer.cpp:121-147 | A run from the start in which two workers reserve one absent key, then both fill and put it: both succeed, the first Put shows memory nobody wrote, and the second replaces it |
| OffloadTheorems.ReadsAreRight | lib/offload/FinalizePoller.cpp:83-99 | A read through the pipeline answered OK carries the bytes stored when it was asked for, and no read of a stored key is told that the key does not exist; when it is answered OK is in the next rows |
| OffloadAnswers.AnsweredIff | lib/offload/FinalizePoller.cpp:83-147 | In every run a step answers a request if and only if it finds the ring full that the request was to go to, with an error, or finalizes it: a read that succeeded with the bytes stored when it was made, another request that succeeded with OK, one that failed with an error |
| OffloadAnswers.GetDelivers | lib/offload/FinalizePoller.cpp:83-99 | In every run, from the asking over the completion to the finalizer, with anything in between: a read whose transfer succeeds is answered OK with the bytes that were stored under its key when it was asked for; one whose transfer fails gets an error |
| OffloadAnswers.UpdateDelivers | lib/offload/FinalizePoller.cpp:101-130 | In every run an offload whose transfer succeeds is answered OK and its key is then on the device where it was written; one whose transfer fails gets an error and the tree stays as it was |
| OffloadAnswers.RemoveDelivers | lib/offload/FinalizePoller.cpp:132-147 | In every run a removal from the device that is finalized is answered OK, and its key and no other is gone |
| OffloadAnswers.PollRefuses | lib/offload/OffloadPoller.cpp:91-228 | Whatever the clients do: the poller tells a read or removal whose key is not there of an error, one whose key is in memory that the key was not found, passes all others on, and tells them of an error when the engine's ring is full |
| OffloadRuns.GetIsAnswered | lib/offload/OffloadPoller.cpp:91-128 | From every state of rest a read of a key on the device goes through poller, engine, device and finalizer to the answer OK with what is stored, and leaves everything else as it was |
| OffloadRuns.RemoveIsAnswered | lib/spdk/SpdkBdev.cpp:348-360 | From every state of rest a removal of a key on the device goes through to the answer OK, the key is gone and every other is found as before |
| OffloadTheorems.ReservedIffAbsent | lib/pmem/ARTree.cpp:516-549 | At every moment of every run, publishing and half-made Puts and removals included, a reservation succeeds, given memory, exactly for the keys that are not stored; that careful clients then get an insert-if-absent map is OffloadTheorems.PutInserts, what two reservers at once get is OffloadRaces.PutShowsOwnIff |
| OffloadTheorems.ExactlyOnce | lib/offload/FinalizePoller.cpp:42-147 | Every request is in exactly one place of the pipeline and unanswered, or in none, answered once and returned to its pool once |
| OffloadTheorems.BuffersBounded | lib/spdk/SpdkBdev.h:157-160 | With each change of `ioBufsInUse` as one step: it equals submitted transfers plus completed reads not yet finalized, and never exceeds `maxIoBufs`; with load and store apart, see the next rows |
| OffloadCounter.CounterExactIff | lib/offload/FinalizePoller.cpp:83-99 | With loads and stores of the plain 32-bit counter as separate steps of the device and finalizer threads: the counter is exact throughout a run if and only if at every store what was owed at its load is still owed |
| OffloadCounter.UndisturbedIff | lib/spdk/SpdkBdev.cpp:217-310 | That is so for a store if and only if the changes the other thread stored since its load add up to 0 modulo 2^32 |
| OffloadCounter.ExactIsBounded | lib/spdk/SpdkBdev.h:157-160 | As long as stores are undisturbed the buffers in use are what the counter says and stay within `maxIoBufs` |
| OffloadCounter.LimitPlusShort | lib/spdk/SpdkBdev.h:156-160 | With a counter that is d short, in every run the buffers in use and taken on stay within the limit plus d, as long as no more updates are lost |
| OffloadCounter.LimitIsExceeded | lib/spdk/SpdkBdev.h:156-160 | And the limit plus d is what the engine may take on: from every state with a counter d short and enough requests waiting one dequeue gets there |
| OffloadCounter.StopsForGood | lib/spdk/SpdkBdev.h:156-160 | An engine that the counter stops takes nothing on in any later state, whatever arrives, as long as no more updates are lost |
| OffloadCounter.StuckWhen | lib/spdk/SpdkBdev.h:156-160 | The counter stops it when increments were lost and fewer buffers than those are in use, so that it wraps, or when as many decrements as the limit were lost |
| OffloadCounter.SoundAlways | lib/offload/FinalizePoller.cpp:42-147 | Whatever the counter says: in every such run no step finds anything missing, stages and bytes are right, and what is owed is submitted transfers plus reads not finalized |
| OffloadCounter.LostUpdateRun | lib/offload/FinalizePoller.cpp:83-99 | A run from the start that loses a decrement: the counter says 2 with one buffer in use |
| OffloadCounter.LostIncrementRun | lib/spdk/SpdkBdev.cpp:217-310 | A run from the start that loses an increment: with nothing in use the counter is 2^32 - 1 and the engine has stopped for good |
| OffloadTheorems.OwnersNeverOverlap | lib/spdk/SpdkBdev.cpp:281-340 | Extents of keys on the device, of writes under way and of written but unpublished values never overlap in any run |
| OffloadTheorems.LostIffFinalizerFull | lib/spdk/SpdkBdev.cpp:104-149 | A step loses a request if and only if a transfer completes into a full finalizer ring, whose refusal the completions ignore |
| OffloadTheorems.LostStaysLost | lib/spdk/SpdkBdev.cpp:104-149 | A lost request stays unanswered in every later state |
| OffloadTheorems.NothingLostWithinRing | lib/spdk/SpdkBdev.cpp:104-149 | Nothing is lost in any run with never more unanswered requests than the finalizer's ring holds |
| OffloadWitnesses.LosingRun | lib/spdk/SpdkBdev.cpp:104-149 | A run from the start that loses one: two offloads complete before a finalizer with a ring of one comes round |
| OffloadAllocation.FreeListMeetsContract | lib/offload/OffloadFreeList.cpp:59-89 | Of the allocator that `doWrite` asks, runs assume a contract only; the free list is an allocator that meets it: a run whose writes take their LBA from the free list, with values of one block count, meets the contract at every write, so everything proved of runs holds of it |
| OffloadAllocation.WriteIsPossible | lib/offload/OffloadFreeList.cpp:59-89 | What the free list hands out in such a run meets the contract: it overlaps nothing live and is on the device |
| OffloadAllocation.TakenKept | lib/spdk/SpdkBdev.cpp:281-340 | In every step all live extents stay on LBAs that were taken and not given back; only a write adds one |
| OffloadAllocation.TransferCoversValue | lib/spdk/SpdkBdev.h:196-207 | For block sizes that are powers of two up to 4096, as long as the rounded size fits 32 bits, a transfer is at least as long as its value |
| OffloadTheorems.SecondOffloadFindsMemoryGone | lib/offload/FinalizePoller.cpp:101-130 | Why a key is offloaded once at a time: publishing one offload starts by freeing the memory the other still has to write, in every state with two |
| OffloadWitnesses.SecondOffloadRun | lib/core/KVStore.cpp:480-529 | A run from the start with two offloads of one key that ends with the engine about to copy from memory that is gone |
| OffloadTheorems.RemovedKeyComesBackIff | lib/offload/FinalizePoller.cpp:101-130 | Why a key is not removed during its offload: finalizing makes it visible again exactly when the write succeeded |
| OffloadWitnesses.NoAddressRun | lib/pmem/ARTree.cpp:556-594 | A run from the start in which there is no memory for the device address of a written value, and the finalizer is about to write through a null pointer |
| OffloadWitnesses.RemovedKeyComesBackRun | lib/core/KVStore.cpp:316-357 | A run from the start in which a key removed during its offload is found again afterwards |
| OffloadRuns.OffloadGoesThrough | lib/offload/OffloadPoller.cpp:91-252 | From every state with idle rings an offload of a key in memory goes through poller, engine and device, given one buffer and free space |
| OffloadRuns.GetGoesThrough | lib/offload/OffloadPoller.cpp:91-136 | So does a read of a key on the device |
| OffloadRuns.PublishGoesThrough | lib/offload/FinalizePoller.cpp:101-130 | And a written offload is published by the finalizer, in its three steps |
| OffloadRuns.RollBackLeads | lib/core/KVStore.cpp:174-187 | From every state with a key in memory a Put of it that finds the ready queue full takes the key out and frees its memory |
| OffloadRuns.RemovalLeads | lib/pmem/ARTree.cpp:282-309 | So does a removal |
| OffloadTheorems.InvKept | lib/spdk/SpdkIoEngine.cpp:45-79 | Every enabled step is defined and keeps the whole invariant |
| OffloadTheorems.AlwaysDefined | lib/spdk/SpdkBdev.cpp:217-340 | Under the invariant no step dereferences a missing wrapper, buffer, request or memory block, and transfers stay on the device |
| OffloadTheorems.ConsistentKept | lib/offload/FinalizePoller.cpp:83-147 | Every step keeps: stored keys readable outside their publishing, owners disjoint, at most one request per key unless all read, and every half-made Put or removal in sole possession of its memory |
| OffloadClients.CallKeeps | lib/core/KVStore.cpp:174-357 | Every piece of a client's Alloc, writing, Put, rollback, Remove or request keeps all of that and finds what it dereferences |
| OffloadStages.StagesKept | lib/offload/OffloadPoller.cpp:91-252 | Every step keeps each request at one stage, or finishes it with one callback and one return to its pool |
| OffloadAccounting.AccountKept | lib/spdk/SpdkBdev.cpp:537-548 | Every step keeps the exact buffer account and the room the engine's dequeue reserved under `canQueue` |
| OffloadAccounting.InUseKept | lib/spdk/SpdkBdev.cpp:104-340 | Every step changes the number of buffers in use by exactly what it takes or gives back |
| OffloadAccounting.CounterMoves | lib/spdk/SpdkBdev.cpp:104-340 | And the counter by the same |
| OffloadSteps.PollData | lib/offload/OffloadPoller.cpp:91-228 | The poller's routing of a request (second lookup, task building, full engine ring) keeps the bytes right |
| OffloadSteps.EngineStepData | lib/spdk/SpdkBdev.cpp:217-360 | Submitting a read, a write to free space or a removal keeps the bytes right; that a removal goes on to remove its key is OffloadAnswers.RemoveDelivers |
| OffloadSteps.CompleteData | lib/spdk/SpdkBdev.cpp:104-149 | Completing a transfer, well or badly, keeps the bytes right: reads deliver the key's bytes, writes put them where nobody else is |
| OffloadSteps.FinCancelData | lib/pmem/ARTree.cpp:564-566 | The first piece of publishing, giving the memory back, keeps the bytes of all other keys, and of this one on the device |
| OffloadSteps.FinPointData | lib/pmem/ARTree.cpp:568-577 | So does the second, overwriting the pointer, memory or not for the device address |
| OffloadSteps.FinPublish | lib/pmem/ARTree.cpp:580-594 | The last piece of publishing, the location: from here on the key is read from the extent written for it, its bytes unchanged and nobody else's touched |
| OffloadSteps.FinStepData | lib/offload/FinalizePoller.cpp:83-147 | All three finalizers keep the bytes right |
| OffloadData.WriteKeeps | lib/spdk/SpdkBdev.cpp:290-308 | A device write to free space changes no stored key's bytes and no waiting write |
| OffloadData.PutKeeps | lib/core/KVStore.cpp:174-187 | Making the reserved memory of an absent key visible keeps the bytes of all other keys and gives the new one what is in that memory |
| ArTrees.ArTree.constructor | lib/pmem/ARTree.cpp:91-143 | A fresh tree is the empty index, with one full level below the root: 257 nodes |
| ArTrees.ArTree.FindValueInNode | lib/pmem/ARTree.cpp:408-497 | The descent ends at the key's own leaf in at most 8 steps; without allocation it changes nothing; with it, missing levels cost at most 7 expansions, no other key's wrapper moves, and running out of memory leaves the index as it was |
| ArTrees.ArTree.AllocateFullLevels | lib/pmem/ARTree.cpp:318-397 | Expanding a node by 256 children leaves every key's path and wrapper as they were |
| ArTrees.ArTree.Get | lib/pmem/ARTree.cpp:220-238 | The trie answers what the index map answers and changes nothing |
| ArTrees.ArTree.Put | lib/pmem/ARTree.cpp:252-264 | The trie's Put is the index map's Put |
| ArTrees.ArTree.Remove | lib/pmem/ARTree.cpp:282-309 | The trie's Remove is the index map's Remove |
| ArTrees.ArTree.AllocValueForKey | lib/pmem/ARTree.cpp:516-549 | The trie's reservation is the index map's, including every way of running out of memory; the node bound grows by at most 7 x 256 |
| ArTrees.ArTree.AllocateAndUpdateValueWrapper | lib/pmem/ARTree.cpp:556-594 | The trie's publish is the index map's publish when there is memory for the device address; when there is none the key's pointer is overwritten with null and dereferenced |
| ArTrees.ArTree.Reopen | lib/pmem/ARTree.h:79-99 | Reopening resets exactly the volatile locations |
| ArTrees.ArTree.GetTreeSize | lib/pmem/ARTree.cpp:164-184 | The recursive count is the subtree's size; for the root it is every node allocated, 1 + 256 x expanded nodes |
| TrieNodes.DistinctLeaves | lib/pmem/ARTree.cpp:408-497 | Distinct keys reach distinct leaves |
| TrieNodes.ExpandKeepsPaths | lib/pmem/ARTree.cpp:318-397 | Expansion keeps every existing path of every key |
| TrieNodes.ExpandKeepsWrappers | lib/pmem/ARTree.cpp:318-397 | Expansion for one key never changes any key's lookup |
| TrieNodes.SetChildWrappers | lib/pmem/ARTree.cpp:418-457 | Hanging a wrapper on a leaf changes that key's lookup and no other |
| TrieSize.ExpandSize | lib/pmem/ARTree.cpp:164-184 | An expansion adds 256 to the counted size of exactly the subtrees it lies in |
| ValueIndex.HistoryDecides | lib/pmem/ARTree.cpp:220-309 | What a key's wrapper shows is decided by the history read backwards, for every run of operations and restarts |
| ValueIndex.GetMatchesHistory | lib/pmem/ARTree.cpp:220-238 | Get's answer in every run: Found exactly when the last publish, put or remove of the key was a put since the last restart or a publish, with the published address |
| ValueIndex.GetAfterRestart | lib/pmem/ARTree.cpp:227-237 | Right after a restart Get succeeds exactly for keys last published to the device, with the same device address |
| ValueIndex.GetExposesLiveMemoryOnly | lib/pmem/ARTree.cpp:227-237 | If every Put follows its reservation, Get never exposes memory reserved before the last restart |
| ValueIndex.PutIsSafeIff | lib/pmem/ARTree.cpp:252-264 | Whatever went before, a Put makes memory readable that was reserved since the last restart and not published or removed since, if and only if such a reservation stood before it |
| ValueIndex.StandsIffLive | lib/pmem/ARTree.cpp:516-549 | A reservation at some index of the history stands exactly when the backward reading finds it |
| ValueIndex.UndisciplinedPutExposesOldMemory | lib/pmem/ARTree.cpp:252-264 | A Put without a reservation after a restart exposes the pointer from before it |
| ValueIndex.StrandedIffNoPut | lib/core/KVStore.cpp:174-357 | A key left in memory at a restart stays as it is through any reservations, puts, removals and updates if and only if no Put is among them |
| ValueIndex.StrandedWithoutPut | lib/core/KVStore.cpp:316-357 | Until then it can be neither read, removed, updated nor reserved |
| ValueIndex.PutBringsBackOldMemory | lib/core/KVStore.cpp:174-187 | A bare Put makes the memory from before the restart readable; then the key can be removed and reserved again |
| ValueIndex.WrapperIffReserved | lib/pmem/ARTree.cpp:516-549 | A key has a wrapper exactly when some reservation for it got that far |
| PoolBuckets.GrowthKeepsItems | lib/common/GeneralPoolBucket.h:628-751 | Inserting 1024 empty slots at the head and shifting the tail leaves the queue and its order as they were |
| PoolBuckets.AdvanceIndex | lib/common/GeneralPoolBucket.h:193-282 | The source's remainder after an increment is the next slot of the ring, the first after the last |
| PoolBuckets.ShiftIndex | lib/common/GeneralPoolBucket.h:628-751 | Its remainder after growth moves the tail by 1024, except in the first buffer, where it stays at 0 |
| PoolBuckets.TakeOne | lib/common/GeneralPoolBucket.h:193-282 | Clearing the slot at the tail and stepping takes exactly the front item, and that slot is never null |
| PoolBuckets.AddOne | lib/common/GeneralPoolBucket.h:292-403 | Filling the slot at the head and stepping appends exactly one item, and that slot is never occupied |
| PoolBuckets.GeneralPoolBuffer.Rellocate | lib/common/GeneralPoolBuffer.h:83-87 | Copies the first slots of another buffer and leaves the rest |
| PoolBuckets.GeneralPoolBuffer.ZeroOut | lib/common/GeneralPoolBuffer.h:90-92 | Clears the first slots and no others |
| PoolBuckets.GeneralPoolBucket.Size | lib/common/GeneralPoolBucket.h:459-478 | The computed size is the length of the abstract queue |
| PoolBuckets.GeneralPoolBucket.InsertBuffer | lib/common/GeneralPoolBucket.h:628-751 | Splitting one buffer and inserting another makes the slot array the old one with 1024 nulls inserted |
| PoolBuckets.GeneralPoolBucket.MakeBuffer | lib/common/GeneralPoolBucket.h:628-751 | Growth keeps the queue; it is refused only at 256 buffers |
| PoolBuckets.GeneralPoolBucket.PutNoLock | lib/common/GeneralPoolBucket.h:292-403 | Appends one object, growing as needed; fails only with 262144 objects stored; the occupied-slot abort is unreachable |
| PoolBuckets.GeneralPoolBucket.Make | lib/common/GeneralPoolBucket.h:409-456 | Appends `count` new objects carrying the bucket's stamp, all different, or stops at the cap |
| PoolBuckets.GeneralPoolBucket.GetNoLock | lib/common/GeneralPoolBucket.h:193-282 | Takes the front of the queue, making objects first when empty; with increment 0 an empty bucket aborts on a null slot, or reads an unset buffer pointer when it never had a buffer, and nothing else does |
| PoolBuckets.GeneralPoolBucket.SetStrategy | lib/common/GeneralPoolBucket.h:595-625 | The clamped increment, and the quotient of the preallocation and the object size made in advance; fails exactly past 262144 objects |
| PoolBuckets.QuantInc | lib/common/GeneralPoolBucket.h:595-625 | The increment is positive exactly when the maximum is, and the minimum or the quotient is |
| PoolBuckets.QuantIncIsClosest | lib/common/GeneralPoolBucket.h:595-625 | Of the numbers between minimum and maximum it is the one closest to the quotient of increment and object size |
| GeneralPools.StampRoundTrip | lib/common/GeneralPool.h:300-374 | Size and bucket read back from a stamp are the ones it was made of if and only if the size is below 2^24 |
| GeneralPools.StampsDiffer | lib/common/GeneralPoolBucket.h:563-565 | Different buckets have different stamps |
| GeneralPools.GetConserves | lib/common/GeneralPool.h:262-297 | Taking an object keeps: each object made is held or stored once in its home bucket, never both |
| GeneralPools.PutConserves | lib/common/GeneralPool.h:300-374 | Returning a held object keeps it |
| GeneralPools.MadeIsStoredPlusHeld | lib/common/GeneralPool.h:222-374 | Objects made = objects stored over all 64 buckets + objects held |
| GeneralPools.GeneralPool.constructor | lib/common/GeneralPool.h:76-138 | For any strategy and object size: 64 buckets with their own stamps, the clamped increment and the preallocated objects, all conserved; aborts exactly when a bucket cannot hold the preallocation |
| GeneralPools.GeneralPool.Get | lib/common/GeneralPool.h:222-259 | Round robin with a 32-bit counter; succeeds exactly when the bucket whose turn it is stores something or can make some; the object was held by nobody, is the bucket's oldest, and the other buckets are as they were |
| GeneralPools.GeneralPool.GetFrom | lib/common/GeneralPool.h:262-297 | Hands out the named bucket's oldest object, or a new one after making an increment; succeeds exactly when it stores something or its increment is in range |
| GeneralPools.GeneralPool.Put | lib/common/GeneralPool.h:300-374 | A held object goes to the end of the bucket that made it, exactly when the size is below 2^24 and the bucket has room; it is refused as foreign exactly when the size is 2^24 or more |
| FreeListSpec.EveryRunIsFifo | lib/offload/OffloadFreeList.cpp:27-89 | In every legal run outstanding, queued and never-used LBAs partition [0, maxLba); fresh ones come out 1..maxLba-1 then 0, recycled ones follow in FIFO order |
| FreeListSpec.GetAbortsIffAllHeld | lib/offload/OffloadFreeList.cpp:59-89 | Get aborts if and only if all LBAs are outstanding or there are fewer than two |
| FreeListSpec.NeverHandedOutTwice | lib/offload/OffloadFreeList.cpp:59-89 | Get never hands out an LBA that is outstanding |
| FreeListSpec.ServesIffTwoLbas | lib/offload/OffloadFreeList.cpp:59-89 | Some run hands out an LBA if and only if the device has at least two |
| FreeListSpec.SmallDeviceServesNothing | lib/offload/OffloadFreeList.cpp:27-89 | With fewer than two, every run leaves the list at its sentinel and nothing outstanding |
| OffloadFreeLists.OffloadFreeList.Push | lib/offload/OffloadFreeList.cpp:27-41 | Appends one node to the linked list |
| OffloadFreeLists.OffloadFreeList.Get | lib/offload/OffloadFreeList.cpp:59-89 | The linked list with its negative sentinel does what the queue does |
| OffloadFreeLists.OffloadFreeList.Clear | lib/offload/OffloadFreeList.cpp:141-153 | Empties the list |
| Extents.HeldExtentsAreSafe | lib/offload/OffloadPoller.cpp:59-77 | In every run the reserved extents of outstanding LBAs are pairwise disjoint and on the device, for every device and extent size |
| Extents.TransfersDisjointIffUniform | lib/spdk/SpdkBdev.cpp:301-308 | The transfers themselves, at `blockSize * lba`, never overlap for any distinct LBAs if and only if the values have the same block count, or one has none, or there are not two LBAs |
| Extents.TransfersClash | lib/spdk/SpdkBdev.cpp:301-308 | A four-block value on LBA 1 and a one-block value on LBA 5 share a block |
| Extents.TransfersInsideIff | lib/spdk/SpdkCore.cpp:195-200 | Every transfer of a block count stays on the device exactly when maxLba of them fit |
| IoSizes.TransferSize | lib/spdk/SpdkBdev.h:196-207 | For block sizes that are powers of two up to 4096, as long as the rounded size fits 32 bits, alignment changes nothing and the blocks transferred are exactly the rounded size |
| IoSizes.WriteBufferCoversIff | lib/spdk/SpdkBdev.cpp:290-308 | The write buffer covers the value if and only if the rounded size fits 32 bits |
| IoSizes.ReadBufferCoversIff | lib/spdk/SpdkBdev.cpp:226-241 | The read buffer holds all transferred blocks for every value if and only if the block size is at most 4096 |
| IoSizes.OneBlockTooBig | lib/spdk/SpdkBdev.cpp:226-241 | For any larger block size a one-byte value already overruns its read buffer |
| IoBufferManager.SpdkIoBufMgr.GetIoWriteBuf | lib/spdk/SpdkIoBuf.cpp:25-40 | A buffer of the size asked, fresh or reused from any history of its class; only a reused one leaves the pool |
| IoBufferManager.SpdkIoBufMgr.PutIoWriteBuf | lib/spdk/SpdkIoBuf.cpp:42-48 | The buffer goes back to the class it came from |
| IoBufferManager.SpdkIoBufMgr.GetIoReadBuf | lib/spdk/SpdkIoBuf.cpp:50-65 | A buffer of the size asked, fresh or reused from any history of its class; only a reused one leaves the pool |
| IoBufferManager.SpdkIoBufMgr.PutIoReadBuf | lib/spdk/SpdkIoBuf.cpp:67-72 | The buffer goes back to the class it came from |
| IoBufferManager.SpdkIoBufMgr.RoundTrip | lib/offload/OffloadPoller.cpp:138-153 | Write and read of one value both get buffers that cover the value and the blocks |
| DeviceState.QuiescentIsIdle | lib/spdk/SpdkBdev.h:221-244 | In every run a quiescent device has nothing in flight, nothing waiting for memory and no thread about to submit |
| DeviceState.NothingAfterQuiescent | lib/spdk/SpdkBdev.cpp:86-99 | From the first quiescent moment on nothing is submitted again, even if quiesce or abort is requested again |
| DeviceState.BecomesQuiescentIff | lib/spdk/SpdkBdev.h:229-234 | In every run a step makes the device quiescent exactly when it is quiescing and the device thread looks with nothing outstanding, or the last transfer completes |
| DeviceState.RefusalBlocksQuiescence | lib/spdk/SpdkBdev.cpp:243-270 | After a submission refused for good the counter never comes down and the device never becomes quiescent |
| DeviceState.AbortReopensIff | lib/spdk/SpdkBdev.cpp:86-99 | Quiescing an aborted device lets submissions through again if and only if I/O was still outstanding |
| DeviceState.RejectedIff | lib/spdk/SpdkBdev.h:221-244 | In every run of a device found ready a transfer is rejected if and only if the last thing asked for before it was an abort, or was a quiesce and the device thread has since found nothing outstanding; every other transfer goes on to be submitted |
| DeviceState.ReadyDeviceSubmits | lib/spdk/SpdkBdev.h:221-244 | As long as nobody quiesces or aborts, every transfer of every run is let through |
| DeviceState.AbortedDeviceSubmits | lib/spdk/SpdkBdev.cpp:86-99 | A run from the start in which an aborted device, asked to quiesce, submits again |
| DeviceState.NeverReportsQuiescent | lib/spdk/SpdkBdev.cpp:91-97 | In no run is the device ever reported quiescent, because nothing makes its finalizer so |
| DeviceState.BuffersExactIff | lib/spdk/SpdkBdev.cpp:217-340 | In every run in which each change of the 32-bit `ioBufsInUse` is one step, it is the number of buffers in use if and only if refusals and drops make up for rejections, which decrement without having counted; updates lost between load and store are a second way for it to be wrong, and are in OffloadCounter |
| DeviceState.RejectionWrapsCounter | lib/spdk/SpdkBdev.cpp:217-224 | One transfer rejected by an idle quiescent device leaves the counter at 2^32 - 1 |
| DeviceState.SpdkBdev.IsIOQuiescent | lib/spdk/SpdkBdev.cpp:91-97 | The test the theorem is about, in place |
| DeviceState.FinalizePoller.Quiesce | lib/offload/FinalizePoller.h:51-55 | Leaves the finalizer quiescing |
| DeviceState.SpdkBdev.RunStateMachine | lib/spdk/SpdkBdev.h:221-244 | The switch is the state function the run theorems are about; which transfers it lets through is DeviceState.RejectedIff |
| DeviceState.SpdkBdev.DoTransfer | lib/spdk/SpdkBdev.cpp:217-340 | Check, then submission, as two steps of the run system, with the decrement of `ioBufsInUse` on the rejecting branch; a device that is ready submits every transfer |
| DeviceState.SpdkBdev.TransferComplete | lib/spdk/SpdkBdev.cpp:104-149 | Both completions: the guarded decrement, the buffer a write gives back, and the state machine, as one step |
| DeviceState.SpdkBdev.FinalizeRead | lib/offload/FinalizePoller.cpp:83-99 | The finalizer's decrement for a read, as one step of the run system |
| DeviceState.SpdkBdev.IOQuiesce | lib/spdk/SpdkBdev.cpp:86-89 | The quiesce step, of the device and of its finalizer |
| DeviceState.SpdkBdev.IOAbort | lib/spdk/SpdkBdev.cpp:99 | The abort step |
| Jbod.ReadsFindAllIff | lib/spdk/SpdkJBODBdev.cpp:54-63 | Hashed lookup finds every device by its address if and only if all hashes differ |
| Jbod.LookupsAgree | lib/spdk/SpdkJBODBdev.cpp:54-89 | With distinct hashes, hashed lookup, linear search and the device itself agree |
| Jbod.CollisionMisreads | lib/spdk/SpdkJBODBdev.cpp:54-63 | Any collision sends reads of the earlier device to a later one, while removals go to the earlier |
| Jbod.HashesEqualIff | lib/spdk/SpdkJBODBdev.h:40-50 | Two addresses collide exactly when all four fields agree in the bits kept |
| Jbod.BusNumbersCollide | lib/spdk/SpdkJBODBdev.h:114-121 | Bus numbers 64 apart collide |
| Jbod.HashFitsIff | lib/spdk/SpdkJBODBdev.h:126-127 | The hash is inside the 65535-entry table for all addresses but one pattern |
| Jbod.LoadsDifferByAtMostOne | lib/spdk/SpdkJBODBdev.cpp:65-75 | After any number of round-robin writes no device has taken two more than another |
| Jbod.TurnsInRounds | lib/spdk/SpdkJBODBdev.cpp:65-75 | After n writes it is the turn of the device whose number is the remainder of n by the number of devices |
| Jbod.SpdkJBODBdev.Init | lib/spdk/SpdkJBODBdev.cpp:99-130 | As many devices as open, in order; the table holds the last device of each hash |
| Jbod.SpdkJBODBdev.Read | lib/spdk/SpdkJBODBdev.cpp:54-63 | The device found by hash, or none; with distinct hashes the device with that address |
| Jbod.SpdkJBODBdev.Write | lib/spdk/SpdkJBODBdev.cpp:65-75 | The device whose turn it is |
| Jbod.SpdkJBODBdev.Remove | lib/spdk/SpdkJBODBdev.cpp:77-89 | The first device with that address, exactly when there is one |
| Jbod.SpdkJBODBdev.WriteThenFind | lib/spdk/SpdkJBODBdev.cpp:54-89 | With distinct hashes a value is read and removed at the device that wrote it |
| Routing.DhtCore.constructor | lib/dht/DhtCore.cpp:107-149 | Any mask: refused above 8 bytes, otherwise neighbours, local node and range map as the configuration says, with bad numbers left at 0 |
| Routing.DhtCore.InitNeighbors | lib/dht/DhtCore.cpp:107-140 | Non-local entries in order; the last local entry, or a default one |
| Routing.LocalIs | lib/dht/DhtCore.cpp:107-140 | The last entry marked local is the local node |
| Routing.RemotesAre | lib/dht/DhtCore.cpp:107-140 | Every other entry is a neighbour, in the order of the configuration |
| Routing.DefaultKeepsZero | lib/dht/DhtCore.cpp:131-139 | A node without an entry of its own keeps exactly the keys whose masked bytes are 0 |
| Routing.DhtCore.InitRangeToHost | lib/dht/DhtCore.cpp:142-149 | The ordered range map, equal ranges overwritten |
| Routing.DhtCore.GenHash | lib/dht/DhtCore.cpp:151-158 | The masked bytes as a little-endian number for up to 3 bytes; a fourth one is sign-extended; for more the shift is undefined and there is no answer |
| Routing.HashIsLittleEndian | lib/dht/DhtCore.cpp:151-158 | The hash is the number the masked bytes stand for, the lowest first, plus all bits from 32 up if a fourth byte is 128 or more |
| Routing.HashDigits | lib/dht/DhtCore.cpp:151-158 | Each masked byte is read back from the hash at its own place |
| Routing.DhtCore.GetHostForKey | lib/dht/DhtCore.cpp:168-187 | The first range in map order that holds the hash; none without a mask; nothing defined for masks of 5 bytes and more |
| Routing.DhtCore.IsLocalKey | lib/dht/DhtCore.cpp:189-197 | Whether the hash is in the local range; always without a mask; nothing defined for masks of 5 bytes and more; what follows for a node without a mask is Cluster.NoMaskIsLocal |
| Routing.AssignIsMapUpdate | lib/dht/DhtCore.cpp:142-149 | Assignment into the ordered map keeps the order and changes one range only |
| Routing.FirstMatchFinds | lib/dht/DhtCore.cpp:174-186 | The scan fails exactly when no range holds the hash |
| Routing.EveryHashOccurs | lib/dht/DhtCore.cpp:151-158 | Every number below the bound is some key's hash |
| Cluster.OneOwnerIffPartition | lib/dht/DhtCore.cpp:107-197 | Every key has exactly one local owner to which all other nodes route if and only if the configured ranges partition the hash space |
| Cluster.OwnerIsConfigured | lib/dht/DhtCore.cpp:107-197 | With ranges that partition the hashes, a node whose bounds are numbers and whose end is not negative owns a key if and only if the key's masked bytes, read as a little-endian number, lie between the bounds configured for it |
| Cluster.CoversIff | lib/dht/DhtCore.cpp:114-120 | Which hashes a node covers, for all configured bounds: negative ones and such as are no numbers included |
| Cluster.FourByteMaskDisowns | lib/dht/DhtCore.cpp:151-197 | With a mask of 4 bytes no node of any configuration is local for a key whose last masked byte is 128 or more |
| Cluster.FourByteMaskOwns | lib/dht/DhtCore.cpp:151-197 | Keys whose fourth masked byte is below 128 are owned by the one node between whose bounds they lie |
| Cluster.RouteFindsCoverer | lib/dht/DhtCore.cpp:168-187 | Routing at a node finds another node whose range holds the hash whenever there is one |
| Cluster.ClusterIsOneMapIff | lib/core/KVStore.cpp:359-374 | Over every run of requests served one at a time, at whatever nodes they are issued, the cluster answers like one insert-if-absent map if and only if no request is unserved: a Put the owner has no memory or ready-queue room for, a remote Put of a present key or over 65576 bytes, a remote Get of a value over 65584 bytes |
| Cluster.RefinesUntil | lib/dht/DhtServer.cpp:93-172 | With requests served one at a time, up to the first such request the stores put together are the map, every worker is alive and every process up |
| Cluster.UnservedAnswer | lib/dht/DhtServer.cpp:93-172 | What each unserved request is answered: queue full, not reserved, overrun, too big or nothing at all; none of them stores or removes anything |
| Cluster.UncoveredIsMissing | lib/dht/DhtCore.cpp:168-187 | A key whose hash no node covers is missing wherever it is asked for |
| Cluster.NoMaskIsLocal | lib/dht/DhtCore.cpp:189-197 | Without a mask every request is served by the store of the node it is issued at, and routing finds no host |
| Cluster.NodeIsOneMapIff | lib/core/KVStore.cpp:359-374 | Without a mask, over every run and whatever the other nodes are asked, each node alone answers like an insert-if-absent map if and only if it never lacks memory or ready-queue room |
| Cluster.EndedWorkerAnswersNothing | lib/dht/DhtServer.cpp:121-147 | A remote Put that the owner cannot reserve ends the worker: the request and everything later sent to that worker stay unanswered; for worker 0, everything sent to that node or issued at it |
| Cluster.OthersAreServed | lib/dht/DhtServer.cpp:262-300 | Nothing else ends: other workers, other nodes and, unless it was worker 0, the node's own clients are served as before |
| Cluster.DuplicatePutRun | lib/dht/DhtServer.cpp:121-147 | A run of two nodes from empty stores: one Put twice, then a Get of another key, answered once and never again |
| Framing.PutRoundTripIff | lib/dht/DhtClient.cpp:312-326 | For every mix of buffered and unbuffered key and value the server reads exactly the key put, and exactly the value if and only if copying the key does not change a byte of the buffered value |
| Framing.InPlaceIsNotClobbered | lib/dht/DhtClient.cpp:261-272 | It never does when the value was allocated behind a key of that length |
| Framing.KeyRoundTrip | lib/dht/DhtClient.cpp:194-225 | For Get and Remove the server reads exactly the key |
| Framing.BufferedKeyArrivesIff | lib/dht/DhtClient.cpp:312-326 | A key allocated and written in the buffer arrives, whatever requests come before it is put, if and only if the last of them with a key of its own had this key |
| Framing.BufferedValueArrivesIff | lib/dht/DhtClient.cpp:261-272 | A value written in the buffer arrives, whatever requests come before it is put, if and only if the last of them to write each of its positions wrote the same byte |
| Framing.InterleavedGetRedirectsPut | lib/dht/DhtClient.cpp:240-252 | A Get of another key in between makes the put go to that other key |
| Framing.BufferedSession | lib/dht/DhtClient.cpp:240-272 | Allocating both, writing them in either order and putting delivers both |
| Framing.DhtClient.FillReqMsg | lib/dht/DhtClient.cpp:312-326 | The in-place copying does what the message function says |
| Framing.DhtClient.AllocKeyInBuffer | lib/dht/DhtClient.cpp:240-252 | One buffered key at a time, at the start of the body |
| Framing.DhtClient.AllocValueInBuffer | lib/dht/DhtClient.cpp:261-272 | One buffered value at a time, right behind the key |
| Framing.DhtClient.FreeKey | lib/dht/DhtClient.cpp:254-257 | Makes the place of the buffered key available and nothing else |
| Framing.DhtClient.FreeValue | lib/dht/DhtClient.cpp:274-277 | The same for the buffered value |
| BoundedBuffers.EveryRunIsFifo | lib/common/BlockingPoller.h:36-84 | In every run items handed out followed by unread ones are exactly the items accepted, in order; at most `capacity` wait |
| BoundedBuffers.PopsTakeExactly | lib/common/BlockingPoller.h:52-65 | In every run a pop hands out the oldest item not handed out yet and only that one; a batch hands out all of them or the oldest 1024 |
| BoundedBuffers.RefusedIffFull | lib/common/BlockingPoller.h:36-50 | A push is refused exactly when `capacity` accepted items were not handed out |
| BoundedBuffers.PushQueues | lib/common/BlockingPoller.h:36-50 | Pushing to the front of the circular container never overwrites an unread item |
| BoundedBuffers.BoundedBuffer.PushFront | lib/common/BlockingPoller.h:36-50 | One push on container and index |
| BoundedBuffers.BoundedBuffer.PopBack | lib/common/BlockingPoller.h:52-65 | The oldest unread item, or none |
| BoundedBuffers.BoundedBuffer.PopBackVector | lib/common/BlockingPoller.h:67-84 | The oldest unread items in order, at most 1024, the rest of the caller's array untouched |
| ReadyKeys.RollbackIsInvisibleIff | lib/core/KVStore.cpp:174-187 | A Put rolled back because the ready queue is full leaves every lookup as it was if and only if its key was not visible before |
| ReadyKeys.RollbackLosesKeyRun | lib/core/KVStore.cpp:174-187 | A run from the start: with room for one, the second Put of a key takes it away |
| ReadyKeys.PutOutcome | lib/core/KVStore.cpp:174-187 | When a Put succeeds, and what it and a failed one leave visible and queued |
| ReadyKeys.EveryRunHandsOutOnce | lib/primary/PrimaryKeyNextQueue.cpp:54-75 | In every run ready keys come out once each in the order of the Puts that succeeded, never one that was rolled back |
| ReadyKeys.TakesNext | lib/primary/PrimaryKeyNextQueue.cpp:54-63 | In every run each request for a ready key gets the next one, as long as there is one |
| ReadyKeys.RestoredIffZeros | lib/primary/PrimaryKeyNextQueue.cpp:54-63 | The key handed out is the key put exactly when that one is zero outside its primary field |
| ReadyKeys.PrimarySurvives | lib/primary/PrimaryKeyNextQueue.cpp:48-63 | The primary field survives queueing |
| ReadyKeys.ReadLayout | lib/primary/PrimaryKeyBase.cpp:29-39 | Offset and size of the last primary field, inside the key |
| ReadyKeys.PrimaryKeyNextQueue.EnqueueNext | lib/primary/PrimaryKeyNextQueue.cpp:65-75 | Local keys are queued or refused when full, others skipped |
| ReadyKeys.PrimaryKeyNextQueue.DequeueNext | lib/primary/PrimaryKeyNextQueue.cpp:54-63 | The oldest primary key, in a cleared key buffer |
| ReadyKeys.KVStore.PutReserved | lib/core/KVStore.cpp:174-187 | Tree, queue and rollback in place do what the specification says |

## Left out

- OffloadSteps.EngineStepData: the branches of `doRead`, `doWrite` and `doRemove` for a device that is not ready, and I/O rescheduling, are not steps of the pipeline; `DeviceState` has them. A rescheduled read is resubmitted through the write callback, which is not modelled.
- Cluster.ClusterIsOneMapIff: requests are served one at a time. A node's store is then a plain map, as `OffloadTheorems.PutInserts` and `OffloadTheorems.ReservedIffAbsent` justify; workers that serve Puts of one absent key at once are in `OffloadRaces`. Whether there is memory and ready-queue room for a Put is a parameter of the request; a request or answer that overruns its buffer is a failed one, and what it overwrites is not modelled.
- Cluster.OneOwnerIffPartition: masks of one to three bytes, whose hashes are below 2^24; the fourth byte is in `Cluster.FourByteMaskDisowns` and `Cluster.FourByteMaskOwns`, and beyond it the shift is undefined.
- Framing.PutRoundTripIff: overlapping copies inside the message are treated as moves, because the source leaves them undefined.
- IoSizes.TransferSize: `io_min_size` is taken as 4096.
- ReadyKeys.EveryRunHandsOutOnce: whether a primary key is local is an arbitrary function of its bytes; the bit arithmetic of `modulo` is not modelled.
- OffloadAllocation.FreeListMeetsContract: lib/offload/OffloadLbaAlloc.cpp, which `doWrite` asks for an LBA, is not modelled, nor the `getBlock` and `putBlock` it uses; the contract stands in its place, and its refusal of a request, which `doWrite` does not look at, is outside the contract. Nothing in lib asks `OffloadPoller::getFreeLba` for the single LBAs of the free list.
- OffloadState.HasReserved: the writes of one reservation to the wrapper (action, pointer, size) are one step.
- OffloadAnswers.RemoveDelivers: the key a callback is handed; a removal's is never set, only the request's own is used.
- LBA reclaim when a key is removed: the source passes a value size of zero to it; a run of `OffloadAllocation` may give back any LBA that nothing live is on.
- DeviceState.SpdkBdev.RunStateMachine: `deinit` and the shutdown that waits for quiescence.
- Re-offloading a key that is already on disk, and the one-second timeouts of synchronous waits.
- Freeing of a removed key's wrapper: its storage is treated as never handed out again.
- Recursion of `allocateFullLevels` over more than one level: no caller asks for it.
- Concurrent creation of leaves in the trie: the source says it is not safe, so the trie is sequential.
- `getTreeDepth`, lib/pmem/RTree.cpp, lib/common/MemMgr.cpp and lib/spdk/SpdkRAID0Bdev.h: they would only add easy members.
- Wrap-around of 64-bit counters (`outstanding_io_cnt`, `_unread`, sizes): they are unbounded numbers here.
- GetAny over the network, asynchronous client calls, statistics, logging, configuration parsing, CPU affinity, CLI and benchmarks.
