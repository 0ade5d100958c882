# llmkit: verified models

llmkit simulates LLM inference serving: a paged KV-cache allocator under a
continuous-batching engine, a cluster of prefill and decode workers, the routing,
rate-limiting and autoscaling around it, and the arithmetic its reports rest on.
This project models those parts in Dafny and proves what they keep, over all
inputs and all runs.

Code that works by changing things is modelled twice: as functions on values,
about which the theorems are proved, and as classes and methods with loops that
are proved to compute exactly those functions. Hashes are arbitrary functions
(content digests are free of collisions by construction, as their chaining is the
point), and step costs, clocks, random draws and traffic are inputs.

| part | files |
|---|---|
| paged allocator | PagedSpec, PagedInvariant, PagedClasses, PagedSharing, PagedRuns, PagedHits, PagedAdmission, PagedExact, PagedWitness, PagedStranding, PagedLengths, PagedRecency, PagedCounts, PagedKVCache |
| contiguous allocator | Contiguous |
| engine | EngineSpec, EngineAccounting, EngineMoves, EngineSteps, EngineRuns, EngineOrder, EngineChunked, EngineMemory, EngineFit, EngineHealth, EngineHealthySteps, EngineHealthyWork, EngineDebt, EngineLiveness, EngineTotal, EngineClock, EngineStuck, EngineGrowth, EngineUnshared, EngineCounting, EngineStarts, EngineRecords, EngineTables, EngineCoverage, EngineClean, EngineWitness, EngineUncovered, EngineRegrown, EngineSchedule, EngineArrivals, EngineEffects, EngineSim |
| cluster | ClusterPrefill, ClusterDecode, ClusterDisaggregated, ClusterBudget, ClusterColocated, ClusterTurns, ClusterShared |
| routing | Ring, Affinity |
| gateway | TokenBuckets, TenantLimits, RetryBudgets |
| autoscaler, metrics, speculation, softmax | Autoscale, AutoscaleRuns, Littles, SpecDec, Softmax |

`dafny verify dfyconfig.toml` checks everything; `Lists` holds shared list lemmas.

## Where the code departs from what it says

Each of these follows the code, with a lemma that shows it.

- Stranded blocks. With prefix caching, a miss can overwrite the cache entry of an
  idle block; that block is then neither free, nor referenced, nor evictable, and
  never becomes so again (`PagedRuns.NeverRecovered`), although the allocator says
  that paging cannot strand free memory (`paged.py:255`). Eight calls do it
  (`PagedStranding.RunStrands`); which blocks a prompt strands is settled by
  `PagedStranding.AllocationStrandsExactly`. For the same reason the admission guard
  does not always suffice (`PagedWitness.GuardCanFail`); when an allocation succeeds
  is settled by `PagedExact.AllocationExact`.
- Append length. The engine grows a table once a step, and passes a length that
  already counts the token emitted at prefill (`engine.py:391`). So a running
  sequence can have more tokens than slots: when its prompt ends on a block boundary
  (`EngineUncovered.BoundaryUncovered`), when speculation jumps over boundaries
  (`EngineUncovered.SpeculationUncovered`), and when it was swapped out and comes
  back with the blocks of its prompt alone (`engine.py:365-367`,
  `EngineUncovered.RestoredUncovered`). `EngineCoverage.EngineCovers` says exactly
  when, in every run. The sharing and coverage theorems about the allocator take the
  true length, as `projects/09-paged-attention/experiment.py:310-311` does.
- Growing a preempted sequence. The growth loop can reach a sequence that it has
  preempted itself, and raise, on a fresh engine within three steps
  (`EngineWitness.RunRaises`). With caching off, counting blocks decides every case
  (`EngineCounting.StepCountsOut`, `EngineCounting.RunCountsOut`); with caching,
  `EngineGrowth.GrowthFailsExactly` does where the newest running sequence is itself
  decoding and would wait off a block boundary. Such a step is the outcome
  `Crashed`; the run theorems speak of runs that complete, except total correctness,
  which proves that no step crashes.
- Where it does not raise, it can grow such a sequence all the same: that one is
  given a token while it waits without its prompt, and its block is lost when it
  starts (`EngineRegrown.RunLoses`). `EngineClean.StepBareExactly`,
  `EngineClean.StepPromptExactly` and `EngineClean.RunLosesExactly` say exactly when;
  with recomputation, caching off and prompts off the block boundary it never
  happens (`EngineClean.NothingLost`).
- Chunked prefill returns before swapped sequences are restored, so in that
  combination they never are (`EngineStuck.NeverRestored`,
  `EngineWitness.SwappedForGood`).
- The contiguous allocator claims to reject requests while enough memory is free
  (`paged.py:277-284`). Its reservations all have one length, and it never does
  (`Contiguous.FitsExactlyWhenEnoughFree`); nor is the waste it reports as external
  unusable (`Contiguous.ReportedWasteIsUsable`).
- "Least-loaded assignment" of decode workers (`cluster.py:220-230`) is round robin:
  counts only grow (`ClusterDisaggregated.AssignLeastLoaded`).
- `lookup` returns one replica when asked for none or fewer.
- `retry_after_s` names a time at which an oversized request still fails
  (`TokenBuckets.RetryAfterExact`).
- A pick can be over the bounded-load ceiling (`Affinity.HeavyPickExceeds`): the
  fallback weighs loads and the ceiling does not. `Affinity.AlwaysUnderExactly` says
  for which weights, offers and factors it never is.
- A scale-down step of zero drains every ready replica, below any minimum
  (`Autoscale.ZeroStepRun`, `Autoscale.ScaleDownLeaves`).

## Model

| member | source | states |
|---|---|---|
| `PagedRuns.EveryRunIsSound` | packages/llmkit/llmkit/simulator/paged.py:112-233 | After any sequence of allocate, append (told the true length) and return calls on a fresh pool, failing calls included: reference counts are the occurrences in the tables, free list, cache and blocks agree, and every table holds its sequence's blocks |
| `PagedRuns.RunKeeps` | packages/llmkit/llmkit/simulator/paged.py:112-233 | The same from any sound state: the allocator invariant is kept by every run |
| `PagedRuns.AllocatePromptSharing` | packages/llmkit/llmkit/simulator/paged.py:152-201 | A prompt allocation, successful or raising part-way, leaves a sound pool; on success the new table holds exactly the prompt's tokens |
| `PagedRuns.AppendSharing` | packages/llmkit/llmkit/simulator/paged.py:203-229 | An append told the true length adds exactly the token to the table's sequence, never indexes an empty table, never copies a tail, rewrites no full block, and on failure leaves every table as it was |
| `PagedRuns.FreeSharing` | packages/llmkit/llmkit/simulator/paged.py:231-233 | Returning a table leaves all the others sound |
| `PagedRuns.NoCopyOnWrite` | packages/llmkit/llmkit/simulator/paged.py:217-227 | Over every such run the copy-on-write counter never moves |
| `PagedRuns.NeverRecovered` | packages/llmkit/llmkit/simulator/paged.py:112-233 | Over every such run a block that is stranded stays stranded |
| `PagedSharing.SharedBlocksAgree` | packages/llmkit/llmkit/simulator/paged.py:152-229 | Two places hold the same block only in two different tables, at the same position, as a full block, and only if the two token sequences agree on everything up to its end |
| `PagedSharing.TableCoverage` | packages/llmkit/llmkit/simulator/paged.py:236-250 | A table has exactly ceil(length / block_size) blocks and wastes fewer than block_size slots |
| `PagedSharing.ChainIsPrefix` | packages/llmkit/llmkit/simulator/paged.py:23-36 | Two chained digests are equal exactly when the whole token prefixes are |
| `PagedHits.CachedIsLongestRun` | packages/llmkit/llmkit/simulator/paged.py:164-192 | cached_tokens is exactly the longest run of leading full blocks in the cache, and those are the blocks handed out |
| `PagedHits.PromptShape` | packages/llmkit/llmkit/simulator/paged.py:152-201 | A successful allocation has one block per full chunk and one for a partial tail; cached tokens never exceed the prompt and are zero without caching |
| `PagedInvariant.InitInv` | packages/llmkit/llmkit/simulator/paged.py:70-88 | A fresh pool satisfies the invariant with no references outstanding |
| `PagedInvariant.EvictInv` | packages/llmkit/llmkit/simulator/paged.py:127-135 | Eviction frees one unreferenced block, removes exactly its cache entry, and touches no other block |
| `PagedInvariant.AddBlockInv` | packages/llmkit/llmkit/simulator/paged.py:112-125 | A block taken was referenced by nobody, every other block is untouched, and failure changes only the failure counter |
| `PagedInvariant.HitInv` | packages/llmkit/llmkit/simulator/paged.py:170-181 | A hit adds one reference to the cached block and keeps the invariant |
| `PagedInvariant.ReleaseInv` | packages/llmkit/llmkit/simulator/paged.py:137-149 | A release takes away one reference and keeps the invariant |
| `PagedInvariant.FreeInv` | packages/llmkit/llmkit/simulator/paged.py:231-233 | Freeing a table takes away exactly its references |
| `PagedInvariant.AllocatePromptInv` | packages/llmkit/llmkit/simulator/paged.py:152-201 | A prompt allocation adds exactly the references of the table built, also when it raises part-way |
| `PagedInvariant.AppendInv` | packages/llmkit/llmkit/simulator/paged.py:203-229 | An append exchanges the caller's references for those of the grown table; it adds a block exactly at multiples of the block size; its only other outcomes are out of blocks and, for an empty table, an index error |
| `PagedClasses.ExactlyOneClass` | packages/llmkit/llmkit/simulator/paged.py:112-149 | Every block is in exactly one of four classes: free, referenced, evictable, stranded; without caching only the first two occur |
| `PagedClasses.Partition` | packages/llmkit/llmkit/simulator/paged.py:92-106 | The four classes add up to the pool; without caching free and referenced alone do |
| `PagedClasses.AddBlockStrands` | packages/llmkit/llmkit/simulator/paged.py:112-191 | A miss strands exactly the idle block whose cache entry it overwrites, also when it evicts first (the entry just evicted is then not there to overwrite); nothing stranded is recovered |
| `PagedClasses.HitStrands` | packages/llmkit/llmkit/simulator/paged.py:170-181 | A hit strands nothing and recovers nothing |
| `PagedClasses.ReleaseStrands` | packages/llmkit/llmkit/simulator/paged.py:137-149 | A release strands exactly a full block whose last reference goes and whose cache entry another block has taken over |
| `PagedClasses.FreeStrands` | packages/llmkit/llmkit/simulator/paged.py:231-233 | Freeing a table never recovers a stranded block |
| `PagedClasses.AllocatePromptStrands` | packages/llmkit/llmkit/simulator/paged.py:152-201 | A prompt allocation never recovers a stranded block |
| `PagedClasses.AppendStrands` | packages/llmkit/llmkit/simulator/paged.py:203-229 | An append never recovers a stranded block |
| `PagedStranding.AllocationStrandsExactly` | packages/llmkit/llmkit/simulator/paged.py:152-201 | A prompt allocation, failing ones included, strands exactly the idle blocks whose cache entries its own later blocks overwrite: once one block has missed, those of the prompt still idle and not yet evicted when their turn comes |
| `PagedStranding.RunStrands` | packages/llmkit/llmkit/simulator/paged.py:112-233 | Eight calls on a fresh pool of five blocks strand a block that was evictable before the last of them, and whatever is called next it stays stranded |
| `PagedAdmission.GuardSuffices` | packages/llmkit/llmkit/simulator/paged.py:108-201 | If the prompt has no idle cached block past its first miss, allocation succeeds exactly when its cost is available and uses up exactly that; so the admission guard rules out OutOfBlocks and leaves the watermark in reserve |
| `PagedAdmission.AllocationBounds` | packages/llmkit/llmkit/simulator/paged.py:112-201 | For every prompt: the least an allocation uses up, and an amount that always suffices |
| `PagedAdmission.NothingIdleUncached` | packages/llmkit/llmkit/simulator/paged.py:190-191 | With caching off that condition always holds, and the cost is one block per chunk |
| `PagedExact.AllocationExact` | packages/llmkit/llmkit/simulator/paged.py:112-201 | In every state a prompt allocation succeeds exactly when a count of free blocks and the idle cache entries in eviction order can be drawn on to the prompt's end, and leaves exactly what that drawing leaves |
| `PagedExact.EvictStock` | packages/llmkit/llmkit/simulator/paged.py:127-135 | Eviction takes the first idle entry of the recency list, fails exactly when none is idle, and keeps the order of the others; PagedRecency.EveryRunEvictsOldest says what that order is |
| `PagedRecency.EveryRunEvictsOldest` | packages/llmkit/llmkit/simulator/paged.py:112-233 | Over every run on a fresh pool, failing calls included, told from a log of the calls alone: the cache holds exactly the digests used and not evicted since, the recency list has them in the order of their latest hit or entry (an overwritten key keeps its place), and every eviction took the one idle entry whose latest use was oldest |
| `PagedRecency.EvictKeeps` | packages/llmkit/llmkit/simulator/paged.py:127-135 | One eviction: the entry that goes is idle, and every other idle one has been used since |
| `PagedRecency.HitKeeps` | packages/llmkit/llmkit/simulator/paged.py:170-181 | A hit is the latest use of its digest, and leaves the list in the order of use |
| `PagedCounts.TakesLast` | packages/llmkit/llmkit/simulator/paged.py:112-135 | A block is taken from the end of the free list, or from an eviction when the list is empty, or not at all; with the counters of each case |
| `PagedCounts.ReleasesLast` | packages/llmkit/llmkit/simulator/paged.py:137-149 | The last reference to a block that is not kept for its content puts it at the end of the free list and is counted; any other release leaves list and counter alone |
| `PagedCounts.FreeInOrder` | packages/llmkit/llmkit/simulator/paged.py:231-233 | A table is given back block by block, in order |
| `PagedCounts.AllocationCounts` | packages/llmkit/llmkit/simulator/paged.py:152-201 | What a prompt allocation adds to the counters: cached tokens are the hits, the other full blocks tried are misses, every block taken is in the table, and only a failure counts as an out-of-memory event |
| `PagedCounts.AppendCounts` | packages/llmkit/llmkit/simulator/paged.py:203-229 | What an append adds to them: the block it takes, if it takes one, and a copy exactly if it copies a shared tail |
| `PagedCounts.AppendWrites` | packages/llmkit/llmkit/simulator/paged.py:203-229 | What an append writes, at any length told: a new block at a boundary, a private copy of a shared tail, or the tail itself, filled up to the offset; every other block stays as it was, but for the reference taken off a copied tail |
| `PagedWitness.GuardCanFail` | packages/llmkit/llmkit/simulator/paged.py:108-201 | Seven calls on a fresh cache reach a state in which the guard holds and allocation raises OutOfBlocks |
| `PagedWitness.Reaches` | packages/llmkit/llmkit/simulator/paged.py:112-233 | Those calls: a prompt built and returned, three tokens appended to an empty table and returned |
| `PagedLengths.TrueCountCovers` | packages/llmkit/llmkit/simulator/paged.py:203-229 | Appends told the true token count keep a table at exactly ceil(length / block_size) blocks |
| `PagedLengths.EngineCountCovers` | packages/llmkit/llmkit/simulator/engine.py:391-391 | A fresh prompt table, appended to at every consecutive length from one past the prompt on, covers its sequence if and only if the prompt does not end on a block boundary or the length does |
| `PagedKVCacheModule.PagedKVCache.constructor` | packages/llmkit/llmkit/simulator/paged.py:70-88 | The object starts as the initial pool, with the invariant |
| `PagedKVCacheModule.PagedKVCache.NumEvictable` | packages/llmkit/llmkit/simulator/paged.py:103-106 | Counts the cached blocks nobody references |
| `PagedKVCacheModule.PagedKVCache.CanAllocate` | packages/llmkit/llmkit/simulator/paged.py:108-109 | Free blocks and cached blocks with no reference together cover the request and the watermark |
| `PagedKVCacheModule.PagedKVCache.EvictOneBlock` | packages/llmkit/llmkit/simulator/paged.py:127-135 | The scan in recency order is the eviction function, and keeps the invariant |
| `PagedKVCacheModule.PagedKVCache.TakeBlock` | packages/llmkit/llmkit/simulator/paged.py:112-125 | Pops a free block, evicting first if need be; failure only counts |
| `PagedKVCacheModule.PagedKVCache.Hit` | packages/llmkit/llmkit/simulator/paged.py:170-181 | The hit branch, with its effect on references: the entry hit goes to the end of the recency list and the others keep their places |
| `PagedKVCacheModule.PagedKVCache.PlaceChunk` | packages/llmkit/llmkit/simulator/paged.py:166-192 | One prompt block: hit, or miss with registration |
| `PagedKVCacheModule.PagedKVCache.PromptTable` | packages/llmkit/llmkit/simulator/paged.py:152-201 | The whole prompt loop is the allocation function, and its references are the table's |
| `PagedKVCacheModule.PagedKVCache.GrowTable` | packages/llmkit/llmkit/simulator/paged.py:203-229 | Append in all its outcomes, with the exchange of references |
| `PagedKVCacheModule.PagedKVCache.ReleaseBlock` | packages/llmkit/llmkit/simulator/paged.py:137-149 | Release in all its branches |
| `PagedKVCacheModule.PagedKVCache.FreeTable` | packages/llmkit/llmkit/simulator/paged.py:231-233 | Releases every block of a table |
| `Contiguous.FitsExactlyWhenEnoughFree` | packages/llmkit/llmkit/simulator/paged.py:291-300 | First fit finds a slot if and only if the free tokens in total reach one reservation, equivalently if fewer than capacity / reserve_len reservations are held |
| `Contiguous.FreeSpaceIsAllUsable` | packages/llmkit/llmkit/simulator/paged.py:291-300 | Whatever the state, exactly free / reserve_len further allocations succeed |
| `Contiguous.EveryRun` | packages/llmkit/llmkit/simulator/paged.py:291-318 | Over every allocate/free history the slots tile the capacity in order with aligned starts and no two free neighbours, and refusal means the memory holds as many reservations as it ever can |
| `Contiguous.FreeSound` | packages/llmkit/llmkit/simulator/paged.py:302-318 | Freeing keeps that shape and gives up exactly the owner's reservations |
| `Contiguous.AllocateSound` | packages/llmkit/llmkit/simulator/paged.py:291-300 | Allocating keeps that shape and adds one reservation or none |
| `Contiguous.AllocateThenFree` | packages/llmkit/llmkit/simulator/paged.py:291-318 | Allocate then free restores the slots exactly |
| `Contiguous.SortedTiles` | packages/llmkit/llmkit/simulator/paged.py:310-310 | Sorting the slots before merging never moves one |
| `Contiguous.MergeTiles` | packages/llmkit/llmkit/simulator/paged.py:308-318 | Merging keeps the tiling, removes every pair of free neighbours, and loses neither a reservation nor a free token |
| `Contiguous.ReportedWasteIsUsable` | packages/llmkit/llmkit/simulator/paged.py:320-336 | Three calls reach a state with reported external waste in which two more reservations succeed |
| `Contiguous.ContiguousAllocator.constructor` | packages/llmkit/llmkit/simulator/paged.py:286-289 | One free slot spanning the capacity |
| `Contiguous.ContiguousAllocator.Allocate` | packages/llmkit/llmkit/simulator/paged.py:291-300 | Succeeds exactly when enough tokens are free in total; the reservation made is the one returned, at the start of the first slot that can hold it, and joins the others in their order; a refusal is counted and changes nothing else |
| `Contiguous.ContiguousAllocator.FreeOwner` | packages/llmkit/llmkit/simulator/paged.py:302-306 | Frees exactly the owner's slots, keeping the shape |
| `Contiguous.ContiguousAllocator.Coalesce` | packages/llmkit/llmkit/simulator/paged.py:308-318 | The merge loop is the merge function |
| `EngineRuns.ExecuteAccounted` | packages/llmkit/llmkit/simulator/engine.py:227-508 | After any normally completing sequence of submit and step calls, both policies, both preemption modes, with or without speculation: every request is on exactly one list, running stays within max_num_seqs, and every record is consistent |
| `EngineRuns.ExactlyOneList` | packages/llmkit/llmkit/simulator/engine.py:215-223 | For each accepted request exactly one of the five lists holds it; a finished one has generated exactly output_tokens; its token times are one per token, ordered and not in the future |
| `EngineRuns.StepAccounted` | packages/llmkit/llmkit/simulator/engine.py:410-508 | One step keeps all of that, never moves the clock back, and counts itself |
| `EngineRuns.ApplyWorkOk` | packages/llmkit/llmkit/simulator/engine.py:466-495 | Applying a step's work keeps the accounting and advances clock and step number |
| `EngineRuns.CreditedOk` | packages/llmkit/llmkit/simulator/engine.py:469-495 | Crediting prefill and tokens and retiring the finished keeps the accounting |
| `EngineAccounting.SubmitAccounted` | packages/llmkit/llmkit/simulator/engine.py:227-230 | Submitting adds exactly the new requests to the pending queue |
| `EngineAccounting.AdmitArrivalsAccounted` | packages/llmkit/llmkit/simulator/engine.py:232-238 | Admission keeps the accounting and loses no request; the next pending one has not arrived yet |
| `EngineAccounting.AllocateAccounted` | packages/llmkit/llmkit/simulator/engine.py:241-255 | Allocation changes no list and no other record |
| `EngineOrder.AdmitsTheArrived` | packages/llmkit/llmkit/simulator/engine.py:232-238 | On an ordered queue admission takes all requests that have arrived and no other, and appends them to waiting in arrival order |
| `EngineOrder.QueueStaysOrdered` | packages/llmkit/llmkit/simulator/engine.py:227-238 | The arrival queue is ordered throughout every run |
| `EngineOrder.InsertByArrival` | packages/llmkit/llmkit/simulator/engine.py:230-230 | A push keeps the queue ordered and adds exactly the request |
| `EngineOrder.WaitingIsPrioritised` | packages/llmkit/llmkit/simulator/engine.py:284-286 | The sorted waiting list has the lower priority number first and, of equal numbers, the earlier arrival, told on the requests' own fields |
| `EngineSchedule.SortStable` | packages/llmkit/llmkit/simulator/engine.py:284-286 | ... and those of one priority and arrival stay in the order they stood in |
| `EngineSchedule.ScheduleChosen` | packages/llmkit/llmkit/simulator/engine.py:289-375 | Every step's work, laid out: from the waiting list put in order the sequences are started one by one, each with the blocks of its prompt, as long as the batch has room and the budget is not spent, and stop where the head is refused its blocks; without chunking any but the first must need, beside what is cached, no more than is left of the budget, each gets the whole prompt it lacks, and only without any prompt do swapped sequences return and decodes run; with chunking all decodes come first at one token each, then those in prefill and then those started get what they lack, within what is left and the cap |
| `EngineSchedule.StartsFirst` | packages/llmkit/llmkit/simulator/engine.py:284-356 | Those that a step starts are the first of that list: by priority none that stays waiting goes before one that is started |
| `EngineSchedule.BudgetKept` | packages/llmkit/llmkit/simulator/engine.py:336-356 | Without chunking, prompts that never ran before are admitted within max_num_batched_tokens together, or one alone |
| `EngineArrivals.SubmitStable` | packages/llmkit/llmkit/simulator/engine.py:227-230 | Requests that arrive together queue up in the order they were submitted |
| `EngineArrivals.WakesFor` | packages/llmkit/llmkit/simulator/engine.py:410-417 | Waking takes in whoever has arrived, as a new record with the token ids brought or synthesised; an engine with nothing in flight first moves its clock to the next arrival, and any other leaves it |
| `EngineArrivals.StepWakes` | packages/llmkit/llmkit/simulator/engine.py:410-419 | A step is idle exactly when nothing is in flight or pending; any other goes to work on the engine woken |
| `EngineArrivals.SynthAt` | packages/llmkit/llmkit/simulator/engine.py:41-64 | Every synthesised token: from the shared key's base within the shared prefix, beyond it from the session's base at its position, or from the request's own counted from there |
| `EngineArrivals.SharersAgree` | packages/llmkit/llmkit/simulator/engine.py:51-54 | Two requests of one group agree on the prefix that both share |
| `EngineArrivals.SessionGrows` | packages/llmkit/llmkit/simulator/engine.py:55-60 | A turn of a session repeats the tokens of every earlier, shorter turn exactly |
| `EngineArrivals.StrangersDiffer` | packages/llmkit/llmkit/simulator/engine.py:45-64 | Requests without a session whose bases lie far enough apart differ in every token that neither shares |
| `EngineOrder.VictimIsNewest` | packages/llmkit/llmkit/simulator/engine.py:394-398 | The victim is the last running sequence other than the one being grown |
| `EngineEffects.PreemptIs` | packages/llmkit/llmkit/simulator/engine.py:257-282 | Preemption, field by field: where the victim goes in either mode, what is reset, what it keeps, and that its blocks are given back |
| `EngineEffects.GrowOneIs` | packages/llmkit/llmkit/simulator/engine.py:388-406 | Growing one sequence: others are preempted, newest first, each because no block was left, until the token fits, or none but itself is left and it is preempted, or an exception ends it |
| `EngineEffects.GrowAllInTurn` | packages/llmkit/llmkit/simulator/engine.py:378-407 | The decodes are grown so one after the other, up to the first exception |
| `EngineEffects.SettledIs` | packages/llmkit/llmkit/simulator/engine.py:453-495 | What a step writes into a record: prompt tokens credited; the step's tokens, or as many as are lacking, stamped with its end; the first token of a prompt just completed; the first token's time, once; draft counters when only decodes ran; finish time, status and table of whoever is done |
| `EngineEffects.FinishLeaves` | packages/llmkit/llmkit/simulator/engine.py:488-495 | Exactly those with all their tokens leave running for finished, in order, and give back their tables in that order |
| `EngineEffects.StepWorkIs` | packages/llmkit/llmkit/simulator/engine.py:419-495 | A whole step: its work is chosen, the decodes are grown in turn, and unless growth raises either nothing is left to work on and 0.1 ms pass, or the step's duration passes and every record and list is written so |
| `EngineEffects.RunLaidOut` | packages/llmkit/llmkit/simulator/engine.py:510-513 | A run takes steps that work or stall while it is below both limits, and ends at a limit, at an idle step or in an exception |
| `EngineMoves.PreemptAccounted` | packages/llmkit/llmkit/simulator/engine.py:257-282 | Preemption moves the victim off running, to swapped or to the head of waiting, and resets its record consistently |
| `EngineMoves.SortWaitingAccounted` | packages/llmkit/llmkit/simulator/engine.py:284-286 | Sorting only permutes the waiting list |
| `EngineMoves.StartHeadAccounted` | packages/llmkit/llmkit/simulator/engine.py:320-322 | Starting the head moves it from waiting to running |
| `EngineMoves.RestoreSwappedAccounted` | packages/llmkit/llmkit/simulator/engine.py:358-372 | Restoring swapped sequences keeps the accounting |
| `EngineMoves.FinishDoneAccounted` | packages/llmkit/llmkit/simulator/engine.py:488-495 | Retiring the finished moves each to the finished list with all its tokens |
| `EngineSteps.ScheduleOk` | packages/llmkit/llmkit/simulator/engine.py:289-375 | Scheduling keeps the accounting; each prefill chunk fits what its sequence still lacks, once per sequence; decodes are running |
| `EngineSteps.GrowAllOk` | packages/llmkit/llmkit/simulator/engine.py:378-407 | The growth loop keeps the accounting; it terminates because running shrinks with every preemption |
| `EngineChunked.DecodeNeverStarves` | packages/llmkit/llmkit/simulator/engine.py:300-330 | In chunked mode every running sequence past its prefill emits at least one token in each normally completing step, or is preempted in it |
| `EngineChunked.ChunkedBudget` | packages/llmkit/llmkit/simulator/engine.py:300-330 | All decodes are scheduled, chunks are positive, each within the per-request cap, and together within what the decodes leave of the budget |
| `EngineMemory.ExecuteMemory` | packages/llmkit/llmkit/simulator/engine.py:227-508 | Over every such run the pool's references are exactly those of the live tables and of the tables dropped or overwritten |
| `EngineMemory.StepMemory` | packages/llmkit/llmkit/simulator/engine.py:410-508 | One step keeps the allocator's invariant |
| `EngineMemory.ScheduleMemory` | packages/llmkit/llmkit/simulator/engine.py:241-372 | Scheduling keeps it, including dropped and overwritten tables |
| `EngineMemory.PreemptMemory` | packages/llmkit/llmkit/simulator/engine.py:257-282 | Preemption returns exactly the victim's references |
| `EngineTotal.TotalCorrectness` | packages/llmkit/llmkit/simulator/engine.py:289-513 | With caching off, positive sizes and a pool of at least max_num_seqs*M and M+watermark blocks, every step of run() does work, or is a last one that finds nothing left; none raises, preempts or stalls; it takes at most the sum of prompt+output steps, and unless a limit cuts it short finishes every request with exactly its tokens and every block free |
| `EngineClock.EveryRequestFinishes` | packages/llmkit/llmkit/simulator/engine.py:510-513 | With bounded arrivals and step durations the clock limit does not cut it short: every request finishes |
| `EngineTotal.RunsToLast` | packages/llmkit/llmkit/simulator/engine.py:510-513 | A run ends in the state its last step leaves, and raises exactly when that step does |
| `EngineTotal.RunHealthy` | packages/llmkit/llmkit/simulator/engine.py:510-513 | A run from any healthy state completes, in at most as many steps as tokens are owed |
| `EngineTotal.StepHealthy` | packages/llmkit/llmkit/simulator/engine.py:410-508 | A healthy step works, stays healthy, and reduces the tokens owed |
| `EngineClock.RunClock` | packages/llmkit/llmkit/simulator/engine.py:466-513 | The clock is at most the last arrival plus the longest step times the number of steps |
| `EngineHealthyWork.GrowAllHealthy` | packages/llmkit/llmkit/simulator/engine.py:378-407 | In a healthy engine growth grows every decode and preempts nobody |
| `EngineFit.AdmittedPrompt` | packages/llmkit/llmkit/simulator/engine.py:241-255 | Without caching an admitted prompt always gets its ceil(prompt / block_size) blocks, so the OutOfBlocks handler is dead |
| `EngineGrowth.GrowthExact` | packages/llmkit/llmkit/simulator/engine.py:378-407 | Whatever is shared or cached: growth preempts nobody if and only if the blocks the decodes need, one for each on a block boundary or with a tail then shared, are available; then every decode survives and exactly those blocks are used |
| `EngineGrowth.GrowthFailsExactly` | packages/llmkit/llmkit/simulator/engine.py:387-406 | When the newest running sequence is the last decode and would wait at a length off the block boundary, growth raises if and only if the decodes before it need more blocks than are available |
| `EngineGrowth.AppendExact` | packages/llmkit/llmkit/simulator/paged.py:203-229 | An append to a table fails exactly when it takes a block and none is available; otherwise it uses exactly what it takes |
| `EngineStarts.ScheduleStarts` | packages/llmkit/llmkit/simulator/engine.py:241-372 | Scheduling starts waiting sequences with ceil(prompt / block_size) blocks, prefilled as far as cached, and swapped ones with the blocks of the tokens restored; it changes no other record |
| `EngineRecords.GrowAllGrew` | packages/llmkit/llmkit/simulator/engine.py:378-407 | What the growth loop does to any one record: it runs on, with one block more exactly if it decodes at a length on a block boundary; or it is preempted, and if its turn is still to come and it waits at such a length, it survives with a single block |
| `EngineRecords.StepWorkRecord` | packages/llmkit/llmkit/simulator/engine.py:410-508 | What a whole step does to any one record: started or not, grown or preempted, credited with its chunk and its tokens, retired or not |
| `EngineTables.ExecuteTables` | packages/llmkit/llmkit/simulator/engine.py:227-508 | In every run a running sequence has ceil(n / block_size) blocks for the n tokens its table was filled with (the prompt, also when restored, unless that is empty) and one for every length on a block boundary its growth was told; those lengths rise, by one each time without speculation |
| `EngineCoverage.EngineCovers` | packages/llmkit/llmkit/simulator/engine.py:362-391 | So in every run: covered up to the last length told if and only if those blocks reach it; without speculation, if and only if the filled blocks, and one more at a boundary, reach the first length told; for a sequence never restored, if and only if the prompt does not end on a block boundary, the length does, or the first length told was the prompt's own |
| `EngineCoverage.PromptCovers` | packages/llmkit/llmkit/simulator/engine.py:378-391 | Without speculation or restoring: ceil(P/B) + L/B - P/B blocks at length L, the first length told being one past the prompt P, or P itself when all of it was cached |
| `EngineCoverage.PlainCovers` | packages/llmkit/llmkit/simulator/engine.py:378-391 | Without speculation the condition is on the first and the last length told alone |
| `EngineUncovered.BoundaryUncovered` | packages/llmkit/llmkit/simulator/engine.py:378-391 | A run in which a prompt that ends on a block boundary is left uncovered |
| `EngineUncovered.SpeculationUncovered` | packages/llmkit/llmkit/simulator/engine.py:453-480 | A run in which a prompt off the boundary is left uncovered by speculation, which jumps over boundaries |
| `EngineUncovered.RestoredUncovered` | packages/llmkit/llmkit/simulator/engine.py:358-372 | A run in which a sequence is swapped out and restored with the blocks of its prompt alone, and is left uncovered |
| `EngineCounting.GrowthCounted` | packages/llmkit/llmkit/simulator/engine.py:378-407 | With caching off, whichever sequence is the newest: whether growth raises, and otherwise who survives, who still runs, how many blocks each has and how many are free, is decided by counting free blocks and table sizes over the running list |
| `EngineCounting.RestoreNeverFails` | packages/llmkit/llmkit/simulator/engine.py:358-372 | With caching off the exception out of a swap restore never comes |
| `EngineCounting.StepCountsOut` | packages/llmkit/llmkit/simulator/engine.py:410-508 | With caching off a step raises if and only if counting what it is about to grow fails |
| `EngineCounting.RunCountsOut` | packages/llmkit/llmkit/simulator/engine.py:227-513 | ... and a run ends in an exception if and only if it gets to such a step |
| `EngineClean.StepBareExactly` | packages/llmkit/llmkit/simulator/engine.py:387-495 | From a state in which only running sequences hold blocks, a step leaves one if and only if each of its decodes still runs or has finished |
| `EngineClean.StepPromptExactly` | packages/llmkit/llmkit/simulator/engine.py:378-486 | From a state in which whoever has tokens has had the prompt prefilled and does not wait, a step leaves one if and only if preemption swaps, or each of its decodes, and each sequence given its whole prompt in it, still runs or has finished |
| `EngineClean.StepLoss` | packages/llmkit/llmkit/simulator/engine.py:241-372 | With caching off a step loses block references if and only if it starts a sequence that holds some |
| `EngineClean.RunLosesExactly` | packages/llmkit/llmkit/simulator/engine.py:227-508 | ... and a run does if and only if one of its steps does |
| `EngineClean.NothingLost` | packages/llmkit/llmkit/simulator/engine.py:227-508 | With recomputation, caching off and prompts that end within a block: in every run only running sequences hold blocks and no reference is lost; with whole-prompt scheduling whoever has tokens has had the prompt prefilled |
| `EngineRegrown.RunLoses` | packages/llmkit/llmkit/simulator/engine.py:387-480 | A run in which a preempted sequence is grown again in the same step, is given a token while it waits with nothing prefilled, and loses its block when it starts |
| `EngineUnshared.ExecuteUnshared` | packages/llmkit/llmkit/simulator/engine.py:227-508 | With caching off no run ever shares a block |
| `EngineUnshared.PreemptsNobodyExactly` | packages/llmkit/llmkit/simulator/engine.py:378-407 | With caching off growth preempts nobody if and only if the decodes on a block boundary are no more than the free blocks |
| `EngineUnshared.RaisesExactly` | packages/llmkit/llmkit/simulator/engine.py:387-406 | With caching off and all running sequences decoding, growth raises if and only if those on a block boundary, the newest left out, outnumber the free blocks (the newest being due to wait off the boundary) |
| `EngineUnshared.StepRaisesExactly` | packages/llmkit/llmkit/simulator/engine.py:410-508 | So does a whole step with nothing to admit or restore |
| `EngineWitness.RunRaises` | packages/llmkit/llmkit/simulator/engine.py:227-508 | Two requests on a fresh engine with three blocks: the third step raises |
| `EngineWitness.SwappedForGood` | packages/llmkit/llmkit/simulator/engine.py:227-513 | A chunked run in which a sequence is swapped out; it stays swapped, unfinished, however the run goes on |
| `EngineStuck.NeverRestored` | packages/llmkit/llmkit/simulator/engine.py:300-375 | With chunked prefill a swapped sequence is never restored and never finishes, in any run |
| `EngineSimModule.EngineSim.constructor` | packages/llmkit/llmkit/simulator/engine.py:186-224 | The initial engine |
| `EngineSimModule.EngineSim.SubmitRequests` | packages/llmkit/llmkit/simulator/engine.py:227-230 | Submission, keeping validity |
| `EngineSimModule.EngineSim.TakeArrivals` | packages/llmkit/llmkit/simulator/engine.py:232-238 | The arrival loop is the admission function |
| `EngineSimModule.EngineSim.AllocateSeq` | packages/llmkit/llmkit/simulator/engine.py:241-255 | Guard, allocation and the handled failure |
| `EngineSimModule.EngineSim.PreemptSeq` | packages/llmkit/llmkit/simulator/engine.py:257-282 | Both preemption modes |
| `EngineSimModule.EngineSim.StartHeadSeq` | packages/llmkit/llmkit/simulator/engine.py:320-322 | The head starts running |
| `EngineSimModule.EngineSim.ChoosePartials` | packages/llmkit/llmkit/simulator/engine.py:305-314 | Chunks for sequences still in prefill, and the budget left |
| `EngineSimModule.EngineSim.AdmitForChunks` | packages/llmkit/llmkit/simulator/engine.py:315-330 | The chunked admission loop |
| `EngineSimModule.EngineSim.AdmitPrompts` | packages/llmkit/llmkit/simulator/engine.py:336-356 | The prefill-priority admission loop is the admission function, which EngineSchedule.ScheduleChosen lays out |
| `EngineSimModule.EngineSim.RestoreSwappedSeqs` | packages/llmkit/llmkit/simulator/engine.py:358-372 | The restore loop, with the exception nothing catches |
| `EngineSimModule.EngineSim.ScheduleStep` | packages/llmkit/llmkit/simulator/engine.py:289-375 | The scheduler over both policies is the scheduling function, which EngineSchedule.ScheduleChosen lays out |
| `EngineSimModule.EngineSim.FindVictim` | packages/llmkit/llmkit/simulator/engine.py:394-398 | The newest running sequence other than the given one |
| `EngineSimModule.EngineSim.GrowSeq` | packages/llmkit/llmkit/simulator/engine.py:388-406 | Growing one sequence, preempting until it fits |
| `EngineSimModule.EngineSim.GrowOrPreempt` | packages/llmkit/llmkit/simulator/engine.py:378-407 | The growth loop in all its outcomes |
| `EngineSimModule.EngineSim.CountDrafts` | packages/llmkit/llmkit/simulator/engine.py:462-464 | Draft counters |
| `EngineSimModule.EngineSim.CreditPrefills` | packages/llmkit/llmkit/simulator/engine.py:470-471 | Prefill progress |
| `EngineSimModule.EngineSim.EmitTokens` | packages/llmkit/llmkit/simulator/engine.py:472-480 | Decode tokens and their times |
| `EngineSimModule.EngineSim.EmitFirstTokens` | packages/llmkit/llmkit/simulator/engine.py:481-486 | First tokens after prefill |
| `EngineSimModule.EngineSim.FinishSeqs` | packages/llmkit/llmkit/simulator/engine.py:488-495 | Finished sequences leave and return their blocks |
| `EngineSimModule.EngineSim.ApplyStep` | packages/llmkit/llmkit/simulator/engine.py:453-495 | Speculation, clock and credit |
| `EngineSimModule.EngineSim.StepOnce` | packages/llmkit/llmkit/simulator/engine.py:410-508 | step() in all its outcomes, keeping validity unless it raises |
| `EngineSimModule.EngineSim.RunAll` | packages/llmkit/llmkit/simulator/engine.py:510-513 | run() up to its limits |
| `ClusterPrefill.RunPrefill` | packages/llmkit/llmkit/cluster.py:201-218 | The heap loop: each request goes to the worker that is free first, of several the one with the least number, starts as soon as both are there, and takes exactly its cost; busy times are the time of the prefills; so no two overlap on a worker, starts follow arrivals, and no request waits while any worker is idle; fails exactly when there is work and no worker |
| `ClusterPrefill.ServeAllOk` | packages/llmkit/llmkit/cluster.py:201-218 | All of that for every request sequence in arrival order and every cost function |
| `ClusterPrefill.ServeOk` | packages/llmkit/llmkit/cluster.py:206-213 | One request keeps it |
| `ClusterPrefill.ByTimeOrdered` | packages/llmkit/llmkit/cluster.py:205-205 | The requests are taken in arrival order, none lost |
| `ClusterPrefill.ByTimeStable` | packages/llmkit/llmkit/cluster.py:205-205 | Requests that arrive together stay in the order they are listed |
| `ClusterPrefill.ServeAllPlanned` | packages/llmkit/llmkit/cluster.py:201-218 | Over every run each prefill is on the worker, at the start and of the length that rule gives |
| `ClusterPrefill.BusyBelow` | packages/llmkit/llmkit/cluster.py:212-212 | A worker's busy time is at most the makespan |
| `ClusterDecode.DecodeWorker` | packages/llmkit/llmkit/cluster.py:250-290 | Terminates for every cost; each request takes part in exactly max(1, output) steps, first and finish stamps are those of its first and last step, never before it was ready; each step takes what its contexts cost (prompt plus tokens so far), follows the last at once or a sleep until a request was ready with everything earlier done, and busy time is the time of the steps; batches are distinct and within max_batch; a request that is ready and lacks tokens is in the batch unless the batch is full of requests ready no later, and once in it stays |
| `ClusterDecode.SteppedTimed` | packages/llmkit/llmkit/cluster.py:277-281 | A step keeps the timing: it takes its cost and starts where the clock stood |
| `ClusterDecode.BusyUntilFinish` | packages/llmkit/llmkit/cluster.py:278-287 | A worker is busy no longer than until one of its requests finishes |
| `ClusterDecode.AdmitReady` | packages/llmkit/llmkit/cluster.py:263-272 | Admission takes the next ready requests in order, until the batch is full or none is ready |
| `ClusterDecode.SteppedFilled` | packages/llmkit/llmkit/cluster.py:262-281 | Nobody ready is left out of a step while the batch has room, and nobody in it leaves before it is done |
| `ClusterDecode.StepBatch` | packages/llmkit/llmkit/cluster.py:277-290 | One step: every active request gets one token, and exactly those with all their tokens leave |
| `ClusterDecode.SteppedOk` | packages/llmkit/llmkit/cluster.py:277-290 | A step keeps the worker's invariant |
| `ClusterDecode.SteppedProgress` | packages/llmkit/llmkit/cluster.py:277-290 | A step reduces the tokens owed |
| `ClusterDisaggregated.AssignLeastLoaded` | packages/llmkit/llmkit/cluster.py:224-230 | Choosing the worker with the fewest requests deals the requests out in turn, worker i mod n |
| `ClusterDisaggregated.DealtAt` | packages/llmkit/llmkit/cluster.py:224-230 | The i-th request is the (i / n)-th of worker i mod n |
| `ClusterDisaggregated.DealtSize` | packages/llmkit/llmkit/cluster.py:224-230 | ... and no worker is dealt anything else |
| `ClusterDisaggregated.RunDisaggregated` | packages/llmkit/llmkit/cluster.py:188-237 | Every request is prefilled by the rule of the prefill pool, is ready for decoding at exactly the end of its prefill plus the transfer time of its prompt, with id, prompt and output unchanged, and is decoded to its last token by one worker, its first token no earlier than that; the decode workers are given these requests and no others, in the order they are ready, one after the other; each takes the time its steps cost; with the latest finish as makespan neither pool's utilisation exceeds one; the run fails exactly when a needed pool is empty |
| `ClusterDisaggregated.PrefillWithin` | packages/llmkit/llmkit/cluster.py:132-237 | The prefill pool's utilisation is at most one, as every prefill ends before some decode does |
| `ClusterDisaggregated.DecodeWithin` | packages/llmkit/llmkit/cluster.py:132-237 | The decode pool's utilisation is at most one |
| `ClusterBudget.AllPlaced` | packages/llmkit/llmkit/cluster.py:340-353 | Each request in prefill advances by exactly its chunk and completes exactly when the prompt is used up |
| `ClusterBudget.ChunksWithin` | packages/llmkit/llmkit/cluster.py:340-353 | The chunks of a step stay within the budget, and are empty when it is not positive |
| `ClusterBudget.ChunksTotal` | packages/llmkit/llmkit/cluster.py:340-353 | The whole budget is used, unless nothing is left to use it on |
| `ClusterBudget.ChunksInOrder` | packages/llmkit/llmkit/cluster.py:340-353 | No request gets prompt tokens before each one ahead of it has its whole prompt |
| `ClusterTurns.SharedSteppedTurns` | packages/llmkit/llmkit/cluster.py:321-353 | Who is taken in and worked on: as many of the arrived, unfinished requests as there is room for; no prompt while an earlier arrival's is unfinished; and unless the budget is used up every prefill ends in a first token |
| `ClusterColocated.SharedSteppedOk` | packages/llmkit/llmkit/cluster.py:333-394 | A step keeps the worker's invariant |
| `ClusterColocated.NewRecord` | packages/llmkit/llmkit/cluster.py:333-394 | What is recorded of a step is what it did |
| `ClusterColocated.SharedProgress` | packages/llmkit/llmkit/cluster.py:333-394 | A step with anything to do makes progress |
| `ClusterColocated.StepShared` | packages/llmkit/llmkit/cluster.py:333-394 | The step's loops do what the step relation says |
| `ClusterShared.ColocatedWorker` | packages/llmkit/llmkit/cluster.py:308-394 | Terminates in both modes; every prompt is prefilled exactly once over, every request gets exactly max(1, output) tokens with consistent stamps; the requests counted as decoding in a step are those with some of their tokens, they are in its batch unless prefill work holds them up, and any other request there has just had the last of its prompt; batch and budget are respected; each step takes what its chunks, the prompt each of them reaches and the decoding contexts cost, at once or after a sleep until an arrival with everything earlier done; prefill busy time is that of the steps with chunks, decode busy time that of the others; the last step serves a request; whom each step takes in and whose prompt it works on is as ClusterTurns.SharedSteppedTurns says |
| `ClusterShared.SharedSteppedPaced` | packages/llmkit/llmkit/cluster.py:333-364 | A step keeps the pace: it takes its cost and starts where the clock stood |
| `ClusterShared.SharedBusy` | packages/llmkit/llmkit/cluster.py:361-364 | A worker's prefill and decode times together are at most until one of its requests finishes |
| `ClusterShared.SharedWithin` | packages/llmkit/llmkit/cluster.py:132-306 | Prefill and decode utilisation of the colocated pool are not negative and together at most one |
| `ClusterShared.RunColocated` | packages/llmkit/llmkit/cluster.py:293-306 | Requests are dealt out in arrival order and all served, by workers that take the time their steps cost; with the latest finish as makespan the two utilisations together are at most one; no worker at all is an error |
| `Ring.MinimalDisruption` | packages/llmkit/llmkit/routing.py:157-181 | Rebuilding without a replica leaves every key's clockwise preference order as it was, with that replica deleted |
| `Ring.OnlyItsKeysMove` | packages/llmkit/llmkit/routing.py:157-181 | Only keys owned by the removed replica change owner, each to its own second choice |
| `Ring.ListingOrderIrrelevant` | packages/llmkit/llmkit/routing.py:157-166 | The ring does not depend on the order replicas are listed, even where positions collide |
| `Ring.RebuildDeletes` | packages/llmkit/llmkit/routing.py:157-166 | Rebuilding without a replica only deletes its virtual nodes |
| `Ring.PreferenceComplete` | packages/llmkit/llmkit/routing.py:168-181 | A preference order lists every replica on the ring exactly once |
| `Ring.OrderedUnique` | packages/llmkit/llmkit/routing.py:164-164 | A sorted ring is fixed by its virtual nodes |
| `Ring.BuiltIs` | packages/llmkit/llmkit/routing.py:157-166 | The ring is in order of position, nodes at one position by name, and holds exactly the virtual nodes of the replicas |
| `Ring.NameLeqIs` | packages/llmkit/llmkit/routing.py:164-164 | Names compare letter by letter, a prefix first |
| `Ring.PreferenceNearest` | packages/llmkit/llmkit/routing.py:168-181 | Read off the ring without its functions: the names a lookup returns are those met first going clockwise from the key |
| `Ring.ConsistentHashRing.constructor` | packages/llmkit/llmkit/routing.py:152-155 | Builds the ring of the given replicas |
| `Ring.ConsistentHashRing.Rebuild` | packages/llmkit/llmkit/routing.py:157-166 | The nested loops build exactly the sorted ring: node i of every replica for i = 0 and for every i below vnodes * weight, and nothing else |
| `Ring.ConsistentHashRing.Lookup` | packages/llmkit/llmkit/routing.py:168-181 | The first n of the key's preference order; one at least, and never more than there are; each name is that of the next node clockwise from the key whose name has not been met |
| `Affinity.PrefixAffinityRouter.Pick` | packages/llmkit/llmkit/routing.py:213-243 | With a key: the first of the known holders with fewest requests in flight, if it is under the ceiling (one request, or the factor times the mean); else the first offered name whose replica is; else, and without a key, the first of the least loaded by weight and queue; each with its counter; in a balanced fleet the pick is never over the ceiling |
| `Affinity.LessLoadedIs` | packages/llmkit/llmkit/routing.py:126-140 | Load is requests in flight by weight, compared without dividing; ties go by queued tokens |
| `Affinity.AlwaysUnderExactly` | packages/llmkit/llmkit/routing.py:213-243 | For given names, weights, offered names and factor: every pick with a key is under the ceiling at every load if and only if the fleet is balanced, a condition on weights, names and factor alone |
| `Affinity.FallbackUnderExactly` | packages/llmkit/llmkit/routing.py:126-140 | The least loaded replica is under the ceiling at every load if and only if no weight is more than the factor times the mean weight |
| `Affinity.OfferAllUnder` | packages/llmkit/llmkit/routing.py:234-243 | With every replica offered and a factor of at least 1 the fleet is balanced, whatever the weights |
| `Affinity.EqualWeightsUnder` | packages/llmkit/llmkit/routing.py:234-243 | With equal weights and a factor of at least 1 it is balanced, whatever is offered |
| `Affinity.HeavyPickExceeds` | packages/llmkit/llmkit/routing.py:213-243 | A pick over the ceiling on a built ring with a probe of one: the replica offered is over it, is turned down, and is then picked as the least loaded for its weight |
| `Littles.IntegrateConcurrency` | packages/llmkit/llmkit/metrics.py:264-288 | The event sweep divided by the window is the requests' clamped residence per unit of window; undefined exactly when nothing was sent or the window is empty |
| `Littles.ResidenceIsIntegral` | packages/llmkit/llmkit/metrics.py:264-288 | That residence is the integral over the window of the number of requests in flight |
| `Littles.LittlesLaw` | packages/llmkit/llmkit/metrics.py:202-244 | With m of n successful requests stamped: the exact amount by which measured concurrency exceeds throughput times mean latency, in terms of the residence of the measured and of all others |
| `Littles.LawHoldsExactly` | packages/llmkit/llmkit/metrics.py:233-244 | The two agree if and only if m times the others' residence is n - m times that of the measured |
| `Littles.LawWhenMeasured` | packages/llmkit/llmkit/metrics.py:233-244 | With every successful request stamped they agree if and only if every failed one was never sent, sent after the window, or gone at once |
| `Littles.MinSend` | packages/llmkit/llmkit/metrics.py:203-203 | The window opens with the earliest send, which is one of the sends |
| `Littles.MaxDone` | packages/llmkit/llmkit/metrics.py:204-204 | It closes with the latest completion, which is one of them, or where it opened if there is none |
| `SpecDec.ClosedForm` | packages/llmkit/llmkit/specdec.py:36-49 | expected_tokens is the sum of alpha^i for i = 0..k, with alpha clamped to [0,1] and k to at least 0 |
| `SpecDec.SurvivorsNested` | packages/llmkit/llmkit/specdec.py:36-49 | One more draft token: the first must survive for any of the rest to count |
| `SpecDec.SpeedupIs` | packages/llmkit/llmkit/specdec.py:52-67 | Speedup times the cost of a pass next to plain decoding, k drafts, the target's pass and k verifications, is the expected tokens |
| `SpecDec.Unimodal` | packages/llmkit/llmkit/specdec.py:64-83 | Once a longer draft stops helping, no longer one ever helps |
| `SpecDec.GainDecides` | packages/llmkit/llmkit/specdec.py:64-67 | One more draft token does not help exactly when its marginal gain is not positive |
| `SpecDec.OptimalK` | packages/llmkit/llmkit/specdec.py:70-83 | The shortest best k up to k_max and its speedup, at least 1; when it is below k_max it is the best over all k |
| `SpecDec.SpeedupMonotone` | packages/llmkit/llmkit/specdec.py:64-67 | Speedup never falls as acceptance rises |
| `SpecDec.BreakevenAlpha` | packages/llmkit/llmkit/specdec.py:86-101 | Eighty halvings: below result - 2^-80 speculation never pays, from the result on it always does, unless the result is 1 |
| `Softmax.SoftmaxOnline` | projects/07-triton-kernels/reference.py:50-75 | For every block size the streaming softmax equals the stable one on every non-empty row |
| `Softmax.OnlineRow` | projects/07-triton-kernels/reference.py:67-74 | One row, block by block |
| `Softmax.BlockStep` | projects/07-triton-kernels/reference.py:69-73 | After each block m is the prefix maximum and d the sum of exp(x - m) over the prefix, wherever the maximum arrives |
| `Softmax.Rescale` | projects/07-triton-kernels/reference.py:50-64 | One multiplication moves the sum to a new maximum, exactly |
| `Softmax.StableIsNaive` | projects/07-triton-kernels/reference.py:33-47 | The stable softmax equals the textbook one, and its exponents are never positive |
| `Softmax.ShiftInvariant` | projects/07-triton-kernels/reference.py:39-47 | Subtracting any constant leaves softmax unchanged |
| `Softmax.SumsToOne` | projects/07-triton-kernels/reference.py:39-47 | The outputs are positive and sum to one |
| `Softmax.SharesOfSum` | projects/07-triton-kernels/reference.py:33-47 | Every output is the exponential of its input as a share of the sum of all the exponentials |
| `TokenBuckets.IntervalBound` | packages/llmkit/llmkit/gateway.py:53-64 | Over any interval with a monotone clock, admitted estimates less refunds are at most capacity + rate * length, from any state |
| `TokenBuckets.StaysInBounds` | packages/llmkit/llmkit/gateway.py:53-64 | The level stays between -capacity and capacity |
| `TokenBuckets.RefillLevel` | packages/llmkit/llmkit/gateway.py:53-56 | The level at any reading: what there was and what the elapsed time earns, up to the capacity; a clock that runs back earns nothing |
| `TokenBuckets.RefillsCompose` | packages/llmkit/llmkit/gateway.py:53-56 | Refilling on the way makes no difference |
| `TokenBuckets.RetryAfterExact` | packages/llmkit/llmkit/gateway.py:66-71 | The advertised wait is the earliest success time if and only if the request fits the capacity and the rate is at least 1e-9; otherwise waiting it out fails |
| `TokenBuckets.TokenBucket.constructor` | packages/llmkit/llmkit/gateway.py:44-51 | A bucket without tokens starts full |
| `TokenBuckets.TokenBucket.RefillTo` | packages/llmkit/llmkit/gateway.py:53-56 | Refill |
| `TokenBuckets.TokenBucket.TryConsume` | packages/llmkit/llmkit/gateway.py:58-64 | Admits exactly when the level then suffices, and takes off exactly what was asked, or nothing |
| `TokenBuckets.TokenBucket.RetryAfterS` | packages/llmkit/llmkit/gateway.py:66-71 | No wait when the level suffices, else the time the rate, or 1e-9 if it is slower, takes to earn what is lacking; with the refill on the way |
| `TokenBuckets.TokenBucket.SettleBy` | packages/llmkit/llmkit/gateway.py:124-128 | Debit down to -capacity, refund up to capacity |
| `TenantLimits.CheckDecides` | packages/llmkit/llmkit/gateway.py:96-115 | A request is let in exactly when no limit stands against it, and the first limit that does is the reason given |
| `TenantLimits.RefusalIsFree` | packages/llmkit/llmkit/gateway.py:96-115 | A refusal consumes nothing: after a tpm refusal the request bucket is at its refilled level |
| `TenantLimits.CheckCharges` | packages/llmkit/llmkit/gateway.py:96-115 | A request let in is charged one request and its estimate; whatever the decision, a spend window an hour old starts over, unless concurrency refused first |
| `TenantLimits.CheckWaits` | packages/llmkit/llmkit/gateway.py:96-115 | How long each refusal says to wait |
| `TenantLimits.BudgetWaitExact` | packages/llmkit/llmkit/gateway.py:100-106 | The wait for a spent budget is exact: with nothing else spent, the tenant is refused for it before and not after |
| `TenantLimits.SettledExactly` | packages/llmkit/llmkit/gateway.py:96-129 | Check and settle together charge exactly the actual tokens, down to the overdraft limit |
| `TenantLimits.BudgetHolds` | packages/llmkit/llmkit/gateway.py:100-106 | A spent hourly budget refuses everything until the window rolls over |
| `TenantLimits.LimitsHold` | packages/llmkit/llmkit/gateway.py:96-129 | Over any interval and any mix of check and settle calls with a monotone clock, the requests let in number at most the burst plus the rate times the interval, and so do the tokens charged to them less what settlements give back |
| `TenantLimits.CheckInBounds` | packages/llmkit/llmkit/gateway.py:96-129 | Both buckets stay within their bounds |
| `TenantLimits.TenantLimits.constructor` | packages/llmkit/llmkit/gateway.py:92-94 | Both buckets start full at their per-second rates |
| `TenantLimits.TenantLimits.CheckRequest` | packages/llmkit/llmkit/gateway.py:96-115 | check() in all its branches |
| `TenantLimits.TenantLimits.SettleRequest` | packages/llmkit/llmkit/gateway.py:117-129 | settle() |
| `RetryBudgets.GrantBound` | packages/llmkit/llmkit/gateway.py:165-174 | At every grant, over every interleaving, the retries granted in the window, itself included, exceed by less than one the requests in it times the ratio, or min_per_s times the window, whichever is greater |
| `RetryBudgets.DecidesByCount` | packages/llmkit/llmkit/gateway.py:165-174 | The decision, counted over the complete history, with the greater of share and trickle written out |
| `RetryBudgets.TrimLater` | packages/llmkit/llmkit/gateway.py:153-158 | A queue trimmed again and again is the complete history cut once |
| `RetryBudgets.RetryBudget.constructor` | packages/llmkit/llmkit/gateway.py:145-151 | An empty budget |
| `RetryBudgets.RetryBudget.TrimTo` | packages/llmkit/llmkit/gateway.py:153-158 | The trimming loops |
| `RetryBudgets.RetryBudget.RecordRequest` | packages/llmkit/llmkit/gateway.py:160-163 | The queues equal the complete history filtered to the window |
| `RetryBudgets.RetryBudget.TryRetry` | packages/llmkit/llmkit/gateway.py:165-174 | Grants exactly when, with n retries and m requests of the complete history in the window, n is below m times the ratio or below min_per_s times the window; counts refusals |
| `AutoscaleRuns.Simulate` | packages/llmkit/llmkit/autoscale.py:143-281 | The loop runs exactly the ticks that start before the end, each with its own traffic; the history they leave is safe, and every tick of it is as AutoscaleRuns.EveryRunTicks says |
| `Autoscale.EveryRunSafe` | packages/llmkit/llmkit/autoscale.py:143-281 | After any number of ticks, for every traffic and every start-up jitter: one record a tick, at its time and with its traffic; arrivals equal served plus dropped plus queue, the queue is within its limit, ready stays at or above the minimum, ready plus starting at or below the maximum, scale-ups and scale-downs respect their cooldowns, and each scale-down follows an unbroken low period of the stabilization length |
| `Autoscale.TickOk` | packages/llmkit/llmkit/autoscale.py:176-279 | One tick keeps all of it |
| `Autoscale.DesiredBounds` | packages/llmkit/llmkit/autoscale.py:84-98 | The wanted size is within the bounds; AutoscaleRuns.DesiredWants says which it is |
| `AutoscaleRuns.EveryRunTicks` | packages/llmkit/llmkit/autoscale.py:143-281 | Every tick of every run, told from the ticks before it: queue, served and dropped; the signal of each of the four kinds; its extrapolation over the last two minutes; the wanted size; the decision with its cooldowns and stabilization; and how many are ready, starting and drained |
| `AutoscaleRuns.DesiredWants` | packages/llmkit/llmkit/autoscale.py:84-98 | Between the bounds the wanted size is the least integer that, times the target, reaches the ready count (one at least) times the signal times the headroom |
| `AutoscaleRuns.NeverFewer` | packages/llmkit/llmkit/autoscale.py:84-98 | So a signal times headroom over the target never asks for fewer than are ready, unless the maximum binds |
| `AutoscaleRuns.QueuedFlows` | packages/llmkit/llmkit/autoscale.py:184-193 | What a tick makes of queue, served and dropped |
| `AutoscaleRuns.SignalMeasures` | packages/llmkit/llmkit/autoscale.py:202-216 | What each kind of signal measures, cleared of its divisions |
| `AutoscaleRuns.DecidedDecides` | packages/llmkit/llmkit/autoscale.py:235-263 | The decision of a tick, told from the actions and the low period before it |
| `AutoscaleRuns.DrainsLatest` | packages/llmkit/llmkit/autoscale.py:254-257 | A scale-down drains the last of the serving replicas, those launched last |
| `AutoscaleRuns.LifecycleMembers` | packages/llmkit/llmkit/autoscale.py:265-271 | Who starts to serve and who goes at the end of a tick |
| `Autoscale.TickLoop` | packages/llmkit/llmkit/autoscale.py:176-279 | The loop body is the tick function |
| `Autoscale.DecideOnce` | packages/llmkit/llmkit/autoscale.py:235-263 | The scaling branch is the decision function |
| `Autoscale.ScaleDownLeaves` | packages/llmkit/llmkit/autoscale.py:252-257 | What a scale-down leaves for every step size, and that it leaves the minimum if and only if the step is positive or its negation is at least the minimum |
| `Autoscale.ZeroStepRun` | packages/llmkit/llmkit/autoscale.py:143-281 | A run with a step of zero in which both ready replicas are drained and nothing serves any more |

## Left out

- Floating-point rounding: times, rates and probabilities are reals.
- Step durations, transfer times and pool sizes: the cost, GPU, model and memory-budget modules are not modelled; their results are arbitrary non-negative inputs, so the time a swap adds to a step is part of that step's input.
- Random draws: accepted draft counts and start-up jitter are arbitrary inputs.
- The arrival tolerance of 1e-9 ms in `engine.py:233`.
- `last_used_step`, `snapshot`, `utilization`, step traces, request records and timeline statistics: write-only or formatting.
- Request ids are distinct. The engine's Sequence objects, shared by its lists in the source, are records in a map keyed by id; the lists hold ids. The cluster keeps requests and their stamps apart in the same way.
- Blocks, slots and replicas are values in lists rather than objects; heaps are kept as the lists in which their entries pop.
- `lost` in the engine and the ghost fields of the classes are of the model only: references nobody can return, and complete histories.
- Liveness under preemption: the code does not guarantee it. Total correctness is stated for pools in which nothing is preempted.
- Requests with `output_tokens` below 1, or with token ids of another length than the prompt, in the engine theorems, and a block size, capacity, reservation length, batch or token budget below 1.
- EngineGrowth.GrowthFailsExactly: the newest running sequence is the last decode and would wait off a block boundary. Without caching every other case is decided by EngineCounting.GrowthCounted; with caching, which of a preempted table's blocks become free depends on who else holds them, and the other cases are not decided.
- EngineClean.RunLosesExactly: caching off. With caching, an allocation that raises and is handled also drops the table built so far; EngineMemory.ExecuteMemory counts those references.
- EngineClean.NothingLost: in chunked mode it does not say that whoever has tokens has had the prompt prefilled, since a sequence preempted in the step that was to prefill its whole prompt is credited with it and a token all the same; EngineClean.StepPromptExactly says exactly when a step does that.
- ClusterDecode.DecodeWorker: arrival times are at least 0, since -1 marks an unset stamp; the cluster's other methods assume the same.
- Littles.LittlesLaw: a request is not done before it is sent, as its stamps come from one monotone clock.
- RetryBudgets.RetryBudget.TryRetry: the clock does not run back and the window is not negative; `stats()` is not modelled.
- TenantLimits.TenantLimits.CheckRequest: the in-flight count is changed by its callers; in runs of calls it is an arbitrary input.
- AutoscaleRuns.Simulate: min <= max, max >= 0 and a scale-down step that spares the minimum (the others are the subject of ScaleDownLeaves); SLO time, replica seconds and the traffic shapes are not modelled; draining replicas are not bounded by the maximum.
- Softmax.SoftmaxOnline: the exponential is any function with exp(0) = 1, exp(x+y) = exp(x) exp(y) and positive values; the naive form's overflow is a matter of floats.
- Round-robin, random and session routing, circuit breaking, prefix bookkeeping, degradation chains, hedging and back-off: they would add only easy members.
- HTTP servers and clients, the Triton kernels, workload generation, reports and tables.
