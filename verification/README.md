# StreamLoader in Dafny

StreamLoader runs a transformer whose weights do not fit on the GPU. A loader
indexes the checkpoint files and groups tensors into blocks; an engine copies all
blocks into one pinned host buffer, keeps some of them resident on the device and
streams the rest through a small fixed ring of device slots; a client
(`attach_engine`) drives it with one prefetch, then for every block of every
forward pass `get_block`, a prefetch `P` positions ahead, the block's kernels and
`mark_block_done`. Host calls only enqueue work: two in-order streams execute it
asynchronously and are ordered by events alone.

The project models this from the checkpoint file to the kernel and proves what the
design is for: in every interleaving of the two streams a kernel reads exactly its
block's checkpoint bytes, when that holds and when it does not, how many transfers a
run makes, and that nothing is lost, torn or freed twice on the way.

## Layers

| files | what they hold |
|---|---|
| `Common`, `Errors`, `Arithmetic`, `Names`, `Text` | shared datatypes, errors, remainders, name order, dotted names and decimals |
| `Shards`, `Checkpoint`, `Models`, `Copies` | one file, the tensor table over many files, byte views, explicit copies |
| `Blocks`, `Grouping`, `Lookup` | matching names, partitioning tensors into blocks, finding one block |
| `Pinned`, `Views`, `Startup`, `Shutdown` | the pinned buffer, tensor views, `RustEngine::new` as a whole, `Drop` |
| `Residents`, `Selection`, `NextUse` | the resident selection on sizes and on the engine's blocks, cyclic next-use distances |
| `Device` | the two streams as cursors over one issue log, buffer contents, races |
| `Engine`, `Protocol`, `Safety`, `Necessity` | the engine object, clients and their discipline, safety for every client, and when it fails |
| `Fifo`, `Plan`, `Schedule`, `Windows`, `Regimes`, `Thrash`, `Attach`, `Exact`, `Rehearsal`, `Overlap`, `Counts`, `Client` | the ring as a window on the transfer log, the installed schedule, its safety, its exact conditions, what overlaps, its counters |
| `EndToEnd` | what kernels and static buffers read, against the checkpoint |
| `Dlpack` | ownership of exported tensor descriptors |

## Main results

* **Race freedom.** `Attach.AttachIsSafe`: for any blocks, sizes, resident subset and
  number of passes, with ring depth `S > P >= 1` and `S >= 2P` (or at most `2P` blocks,
  or all streaming blocks fitting the ring, or everything streaming with `S <= 2P - 2`),
  no interleaving lets a copy overlap a kernel on the same buffer, and every kernel finds
  its block. `Safety.DisciplineIsSafe` gives the same for any client that never makes a
  transfer land on an outstanding block's slot or outgrow its slot;
  `Necessity.TransferIsSafeExactly` says when a single transfer is safe, both ways.
* **The guard is not enough.** The code admits every `S > P`
  (`engine/streamloader_engine/__init__.py:55`), and its comment argues that `P + 1`
  slots suffice. `Exact.ExactGuard` shows what does: a ring passing that guard is safe for
  all block sizes and resident budgets, the residents being what the engine's greedy pass
  selects for them, if and only if `S >= 2P` or there are at most `2P` blocks.
  `Exact.DefaultGuard` settles the default of no resident budget: safe if and only if
  `S` is not exactly `2P - 1` or there are at most `2P` blocks; shallower rings thrash but
  do not race. At the shipped `P = 1` the guard implies both.
* **Any residents, exactly.** For one particular resident subset in a shallow ring the
  answer depends on which blocks are resident. `Rehearsal.RehearsalIsExact`: for every
  subset, ring, distance and number of passes, all interleavings are safe if and only if
  replaying the schedule's ids on a window of the last `S` transferred ids never
  prefetches over a full window whose oldest id is the running block.
  `Rehearsal.RehearsalDecides` makes that a finite check for every number of passes at
  once, and `Rehearsal.RepeatDecides` lets it stop as soon as the window after a pass
  repeats. `Rehearsal.OneOfFive` decides a family none of the closed conditions covers:
  of five blocks, three slots and `P = 2`, keeping one block resident is unsafe exactly
  if it is the first.
* **Overlap.** What the prefetch is for: `Overlap.AttachOverlaps` shows, for every prefetch
  of the installed schedule that misses, an interleaving in which the block fetched ahead
  is being copied while the kernel of the block got before runs; `Overlap.DeepRingOverlaps`
  that in a deep oversubscribed ring this is every prefetch of a streaming block, in every
  pass. `Overlap.WaitsAreNeeded` says that no call waits for more.
* **The shared block does not belong in the ring.** A copy of a block larger than the ring's
  slots runs past the end of its slot. Listed blocks never do
  (`Safety.ListedIsSized`); `Safety.OversizedFetchOverruns` shows that prefetching another
  block, such as a large shared one, does exactly when it does not fit.
* **Dropping the engine.** `Drop` drains the transfer stream only. No copy or memset is
  under way then (`Shutdown.DropIsSafe`), but a kernel may be:
  `Shutdown.DropIsQuietExactly` says that none is, in any execution, if and only if the
  transfer stream was told to wait for every launched kernel, and
  `Shutdown.AttachIsNeverQuiet` that the installed hooks never meet that condition after
  a pass.
* **Exact counters.** `Counts.TransferCounts`, `Counts.ThrashCounts`, `Counts.HitCounts`
  and `Counts.RingHitCounts` give closed forms for transfers, bytes, cache hits and
  resident hits.
* **End to end.** `Startup.StartedReadsTheCheckpoint`: on an engine that start-up returned,
  at any moment of any interleaving, reading through the device addresses handed out for
  a running block finds, for every tensor, the payload that its own file's header assigns
  to it, with that header's dtype and shape.
* **Repeated families.** The code accepts a family label configured twice.
  `Lookup.IdsDistinctExactly`: block ids are distinct if and only if no family that
  matches a tensor is repeated; with a repetition blocks are pinned twice, and start-up
  still does what `Startup.NewEngine` says.
* **Selection.** On the engine's own blocks and bytes: the residents are within the budget,
  no other block fits, and no distinct blocks within the budget have more than twice their
  bytes (`Selection.SelectionFillsBudget`). Greedy keeps at least half of the best achievable bytes and, with two
  block sizes, is exact if and only if the smaller divides the larger
  (`Residents.TwoSizesExactly`); sizes 3 and 2 with budget 4 are one failure.
* **Lookup.** Finding a block by id agrees with listing all blocks exactly when the id is
  not an alias (`Lookup.FindAgrees`): `layers.01` finds the block that is listed as
  `layers.1`, although the code's documentation speaks of exact ids
  (`src/block.rs:199-201`).
* **Ownership.** `Dlpack.NeverFreedTwice` and `Dlpack.FreedWhenUnheld` cover every order of
  creation, failure, import, capsule destruction and collection.

## How asynchrony is modelled

The host appends commands to one issue log. A stream's queue is the subsequence
addressed to it, so a device state is a pair of cursors into the log; either stream may
advance when the command under its cursor is enabled. A wait names the log index of the
record it refers to, since the code makes a fresh event for every record; a wait whose
event was not recorded before the wait was issued is a no-op, as in CUDA. Copies, memsets
and kernels have a begin and an end, so overlap is visible. The memsets that allocation
enqueues for the ring are part of the log, and nothing waits for them.

## Model

| member | source | states |
|---|---|---|
| Device.ExecutionInvariant | engine/src/engine.rs:520-529 | In every reachable device state both cursors are inside the log and every wait a stream has passed was honoured by the other stream's record |
| Device.ProtectedIsAlwaysSafe | engine/src/engine.rs:614-662 | If every kernel was fed by a wait on its block's copy and every later write to its buffer was held back behind a record issued after the kernel, no interleaving races or reads another block |
| Device.NeverStuck | engine/src/engine.rs:520-529 | While work remains some stream can advance |
| Device.ExecutionsTerminate | engine/src/engine.rs:621-662 | Each step consumes one unit of remaining work; a run that cannot continue has executed everything |
| Device.IssueOrderReachable | engine/src/engine.rs:514-529 | Executing commands in issue order is one of the interleavings |
| Engine.FillPool | engine/src/engine.rs:342-374 | The resident pool loop issues allocate, copy, record per resident block, and each block's ready event is the record of its own copy |
| Engine.RingCapacity | engine/src/engine.rs:382-387 | The ring's slot capacity bounds every block that still streams and is attained by one of them, or 0 |
| Engine.AllocateRing | engine/src/engine.rs:389-406 | The ring starts with that many empty slots, each with an un-awaited memset in the log |
| Engine.SlotHolding | engine/src/engine.rs:575-579 | The first slot holding an id: no earlier slot does, and none at all when there is no result |
| Engine.RustEngine.constructor | engine/src/engine.rs:289-429 | The tail of start-up: pool filled, ring sized after the resident selection, at least one slot, a host state equal to the specified boot state |
| Engine.RustEngine.Position | engine/src/engine.rs:597-601 | The scan finds the slot the specification names |
| Engine.RustEngine.IssueTransfer | engine/src/engine.rs:588-677 | Resident pool, ring hit, unknown id, or a fetch into the next slot: whole new state (slots, cursor, statistics, timings, commands) and the returned buffer and event |
| Engine.RustEngine.Prefetch | engine/src/engine.rs:506-508 | The same transition without a wait on the compute stream: all it appends to the issue log is for the transfer stream |
| Engine.RustEngine.GetBlock | engine/src/engine.rs:514-529 | The transition followed by a compute-stream wait on the block's ready event; the tensors built at the returned buffer are `EndToEnd.GetBlockTensors` |
| Engine.RustEngine.MarkBlockDone | engine/src/engine.rs:545-573 | Nothing for a resident or evicted block, otherwise a compute-stream record becomes the slot's free event |
| Overlap.PrefetchLeavesCompute | engine/src/engine.rs:506-508 | Every command a prefetch issues is for the transfer stream, and it lends nothing |
| Overlap.WaitsAreNeeded | engine/src/engine.rs:514-529 | Of all calls only a get makes the compute stream wait, as its last command and for the ready event of the block it returns; only a transfer makes the transfer stream wait, for the free event of the slot it reuses |
| Overlap.PrefetchOverlaps | engine/src/engine.rs:614-662 | From any state: a prefetch that misses and then the kernel of an outstanding block can run at the same time |
| Overlap.AttachOverlaps | engine/streamloader_engine/__init__.py:69-95 | For any ring, residents and number of passes: at every position whose prefetch misses, some execution has the copy of the block fetched ahead and the kernel of the block got before under way at once |
| Overlap.DeepRingOverlaps | engine/streamloader_engine/__init__.py:55-75 | With S >= 2P and more streaming blocks than slots that is every prefetch of a streaming block, in every pass, and all executions are safe |
| Safety.ReadyFollowsLoad | engine/src/engine.rs:342-374 | A resident block's ready event is recorded directly behind its own copy |
| Safety.ReadyFollowsCopy | engine/src/engine.rs:614-676 | A transfer takes the next slot, leaves it without a free event, and its ready event is recorded directly behind its own copy |
| Protocol.FetchKeeps | engine/src/engine.rs:614-676 | A transfer that does not land on an outstanding block keeps the protocol invariant, including that every kernel issued so far is protected |
| Protocol.GetKeeps | engine/src/engine.rs:514-532 | Handing a block out keeps the invariant |
| Protocol.LaunchKeeps | engine/streamloader_engine/__init__.py:69-78 | Kernels on an outstanding block keep the invariant: they are fed by the wait their get enqueued |
| Protocol.DoneKeeps | engine/src/engine.rs:545-573 | Marking done keeps the invariant: the free event postdates every kernel on the slot |
| Protocol.RunKeeps | engine/src/engine.rs:506-573 | Every disciplined sequence of calls keeps the invariant |
| Safety.RunConsistent | engine/src/engine.rs:506-573 | Whatever the client calls, slots, pool and events stay consistent and every wait refers to a record issued before it |
| Safety.NoDeadlock | engine/src/engine.rs:568-662 | For any calls: every wait binds to an earlier record, executions are bounded, and one that cannot step has executed everything |
| Safety.ListedIsSized | engine/src/engine.rs:382-387 | Calls with listed or unknown ids never ask the ring for a block larger than its slots |
| Safety.SizedRunFits | engine/src/engine.rs:640-652 | Then every copy issued into a ring slot is of a block that fits it, in whatever order the calls come |
| Safety.OversizedFetchOverruns | engine/src/engine.rs:607-652 | Prefetching a non-resident block on a fresh engine stays inside its slot if and only if the block fits: the shared block may not |
| Safety.StaticBuffersKeepTheirBlocks | engine/src/engine.rs:291-374 | The shared and the resident buffers hold their blocks in every reachable state, in whatever order a client calls that asks for no oversized block, and no ring copy outgrows its slot |
| Safety.DisciplineIsSafe | engine/src/engine.rs:614-652 | A client whose transfers never land on an outstanding block's slot, nor in a slot too small for them, is safe under every interleaving, and no copy outgrows its slot |
| Safety.UndisciplinedIsUnsafe | engine/src/engine.rs:614-652 | Conversely, a transfer onto an outstanding block's slot followed by that block's kernel admits a run in which the kernel is overwritten or reads the other block |
| Necessity.TransferIsSafeExactly | engine/src/engine.rs:617-652 | From any state of the protocol, a transfer is safe under every interleaving if and only if every kernel issued on its slot precedes an event the transfer stream is told to wait for |
| Necessity.LaunchThenTransferIsUnsafe | engine/src/engine.rs:617-652 | In particular a kernel launched and not marked done before the transfer lands on its slot races with it |
| Fifo.SlotsAreRecent | engine/src/engine.rs:597-605 | A block is in the ring if and only if it is among the last S transfers of the timing log |
| Fifo.Victim | engine/src/engine.rs:614-615 | The slot about to be reused holds the oldest of the last S transfers, or is empty while fewer than S were made |
| Fifo.FetchRefines | engine/src/engine.rs:614-676 | A fetch appends its block to the transfer log and keeps the slots equal to that log's window |
| Fifo.ApplyRefines | engine/src/engine.rs:588-677 | Every call acts on the ring as a touch on a FIFO window: hits change nothing, misses append |
| Fifo.RunAccounts | engine/src/engine.rs:592-676 | Over any calls with known ids, transfers plus cache hits plus resident hits count the issues, and the byte counter is the sum over the timings |
| Fifo.RingStateAlways | engine/src/engine.rs:382-406 | Occupants are always distinct streaming blocks, never resident or shared ones, and fit their slot |
| Plan.PlannedClosedForm | engine/streamloader_engine/__init__.py:69-76 | The transfers planned up to a position, by count or by bytes, as a closed form in prefix sums over streaming blocks |
| Schedule.PositionRuns | engine/streamloader_engine/__init__.py:69-85 | One block's hooks run as planned: its get and its prefetch transfer exactly what the plan says, without touching the outstanding block |
| Schedule.PassRuns | engine/streamloader_engine/__init__.py:69-85 | A whole pass whose positions are as planned extends the transfer log by exactly the plan and keeps the discipline |
| Windows.FirstPassAsPlanned | engine/streamloader_engine/__init__.py:73-75 | When enough transfers separate a block from its victim, the first pass goes as planned |
| Windows.LaterPassAsPlanned | engine/streamloader_engine/__init__.py:73-75 | The same for every later pass, from the log the pass before left |
| Regimes.DeepRing | engine/streamloader_engine/__init__.py:55-60 | With S >= 2P a prefetch never reaches back to a block still in use |
| Regimes.AllFit | engine/streamloader_engine/__init__.py:55-60 | When all streaming blocks fit the ring nothing is evicted at all |
| Regimes.ShortFlushes | engine/streamloader_engine/__init__.py:55-60 | In a model of at most 2P blocks with a shallow ring, the blocks from P up to the cut are flushed between their prefetch and their get in the first pass |
| Regimes.ShortKeeps | engine/streamloader_engine/__init__.py:55-60 | ... and, got late in one pass, are still in the ring when the next pass prefetches them |
| Regimes.ShortPrefetches | engine/streamloader_engine/__init__.py:55-60 | ... while the blocks from the cut on are still in the ring when they are got |
| Thrash.EarlyFlushes | engine/streamloader_engine/__init__.py:55-60 | In a long model that streams entirely through a ring of at most 2P - 2 slots, every prefetched block up to a cut near the end is flushed before it is got |
| Thrash.LatePrefetches | engine/streamloader_engine/__init__.py:55-60 | ... and from the cut on, where no prefetches are left, it is still there |
| Thrash.ThrashLeavesFar | engine/streamloader_engine/__init__.py:55-60 | With more than S + P blocks every pass leaves each block far enough back that the next pass goes exactly like the first |
| Thrash.CarriedOver | engine/streamloader_engine/__init__.py:55-60 | With at most S + P blocks the blocks got last are still in the ring for the next pass's first prefetches |
| Attach.StepsRun | engine/streamloader_engine/__init__.py:87-95 | The schedule's whole transfer log after any number of passes, in each of the regimes, and that it ends ready for the next pass |
| Attach.AttachIsDisciplined | engine/streamloader_engine/__init__.py:69-95 | No transfer of the installed schedule lands on an outstanding block's slot or outgrows its slot |
| Attach.AttachIsSafe | engine/streamloader_engine/__init__.py:69-95 | Race freedom and right contents under every interleaving, for every block count, resident subset and number of passes, under any of four conditions a caller can check: a ring twice as deep as the prefetch distance, a short model, a ring that holds all that streams, or everything streaming through a ring at least two slots short of that depth |
| Exact.SqueezedGets | engine/src/engine.rs:597-615 | In the failing family, getting block P hits and leaves its own slot the next one to be reused |
| Exact.SqueezedBreaks | engine/src/engine.rs:614-629 | From there the prefetch of block 2P followed by block P's kernel is unsafe |
| Exact.ShallowRingIsUnsafe | engine/streamloader_engine/__init__.py:34-60 | For every P < S < 2P and more than 2P blocks, keeping blocks 1 to 2P - S - 1 resident passes the guard and races, after any number of passes |
| Residents.TwoAreSelected | engine/src/engine.rs:327-340 | Greedy selects exactly a run of blocks of size 2 among blocks of size 1 when the budget is just theirs |
| Exact.SqueezedIsSelected | engine/src/engine.rs:327-340 | So there are sizes and a budget for which the engine selects exactly those residents |
| Residents.NoBudgetNoResidents | engine/src/engine.rs:333-340 | Without a budget no block of positive size is resident |
| Exact.ResidentFreeGuard | engine/streamloader_engine/__init__.py:34-60 | With no residents, one pass or more is safe if and only if the ring is not exactly one slot short of 2P or there are at most 2P blocks |
| Exact.DefaultGuard | engine/src/engine.rs:333-340 | The same for the residents the engine selects without a budget, from positive block sizes |
| Exact.ExactGuard | engine/streamloader_engine/__init__.py:34-60 | A ring that passes the guard is safe for all block sizes, resident budgets with their greedy selection, and numbers of passes if and only if S >= 2P or there are at most 2P blocks |
| Rehearsal.ClearPosition | engine/streamloader_engine/__init__.py:69-85 | One block's hooks without a clash keep the discipline and move the ring's window as the rehearsal does |
| Rehearsal.RehearsalTracks | engine/streamloader_engine/__init__.py:69-95 | As long as the rehearsal meets no clash, all passes are disciplined and its window is the last S transfers of the engine |
| Rehearsal.ClashBreaks | engine/src/engine.rs:614-629 | A clash, the prefetch missing a full ring whose oldest block is the one running, has an interleaving in which a buffer is overwritten while it is read |
| Rehearsal.RehearsalIsExact | engine/streamloader_engine/__init__.py:69-95 | For every resident subset, ring depth, prefetch distance and number of passes: safe under every interleaving if and only if the rehearsal meets no clash |
| Rehearsal.RepeatDecides | engine/streamloader_engine/__init__.py:69-95 | Once the window after a pass repeats, no clash so far means safety for every number of passes, and a clash so far the opposite |
| Rehearsal.WindowsRepeat | engine/src/engine.rs:614-615 | Within a bound that depends on the blocks and the ring only, the window after a pass does repeat |
| Rehearsal.RehearsalDecides | engine/streamloader_engine/__init__.py:69-95 | Safety for every number of passes is decided by a rehearsal of that many passes, both ways |
| Rehearsal.CoveredIsRehearsed | engine/streamloader_engine/__init__.py:55-60 | The four closed conditions pass every rehearsal |
| Rehearsal.OneOfFive | engine/streamloader_engine/__init__.py:55-60 | Five blocks, P = 2, three slots, one block resident: safe for every number of passes if and only if the resident block is not the first |
| Counts.AttachIssues | engine/streamloader_engine/__init__.py:69-95 | How many issues a run makes, and how many of them ask for resident blocks |
| Counts.TransferCounts | inference/tests/test_resident_pool.py:103-119 | Transfers and bytes after any number of passes: one per streaming block ever if they fit, one per streaming block per pass in a deep ring, and in a shallow ring the exact surplus of the first pass or of every pass |
| Counts.ThrashCounts | engine/src/engine.rs:614-676 | A thrashing ring transfers n blocks and n - 1 - S of them again, in every pass if n > S + P, else only in the first |
| Counts.HitCounts | engine/src/engine.rs:592-605 | In any ring, safe or not: resident hits are one per pass below position P, two from P on, one extra for a resident first block; transfers and ring hits together are the touches of streaming blocks |
| Counts.RingHitCounts | engine/src/engine.rs:597-605 | Ring hits in every covered regime: in an oversubscribed ring one per pass per streaming block from P on, less the blocks transferred a second time, one extra for a streaming first block; when all fit, every touch but one per streaming block |
| Client.Transformer.constructor | engine/streamloader_engine/__init__.py:62-95 | A fresh client has nothing outstanding |
| Client.Transformer.Prefetch | engine/streamloader_engine/__init__.py:75-75 | The prefetch call advances the session as specified, and all it issues is for the transfer stream |
| Client.Transformer.PreHook | engine/streamloader_engine/__init__.py:69-78 | Get, assign, prefetch P ahead unless past the end; the block is then outstanding |
| Client.Transformer.Forward | engine/streamloader_engine/__init__.py:69-78 | The block's kernels read the buffer its views were assigned |
| Client.Transformer.PostHook | engine/streamloader_engine/__init__.py:80-85 | The block is marked done |
| Client.Transformer.RunBlock | engine/streamloader_engine/__init__.py:87-91 | Both hooks around the forward are exactly one position of the schedule |
| Client.Transformer.ForwardPass | engine/streamloader_engine/__init__.py:87-91 | All positions in order are exactly one pass |
| Client.AttachEngine | engine/streamloader_engine/__init__.py:31-95 | Each guard fails exactly when it should and then changes nothing; otherwise the first block has been prefetched |
| Client.Generate | engine/streamloader_engine/__init__.py:15-95 | Attaching and running passes issues the specified run; what was issued is safe if and only if the rehearsal meets no clash, and so under the closed conditions; in a deep oversubscribed ring the transfer counter is exact |
| Residents.SortIsPermutation | engine/src/engine.rs:327-331 | The size order is a permutation of the blocks, largest first |
| Residents.SortIsStable | engine/src/engine.rs:327-331 | Blocks of one size keep their execution order |
| Residents.ChooseResident | engine/src/engine.rs:333-340 | The selection loop keeps what greedy keeps, with its total |
| Residents.PickedAreBlocks | engine/src/engine.rs:333-340 | The selected ids are block ids, each at most once if no two blocks share one |
| Residents.GreedyFitsAndIsMaximal | engine/src/engine.rs:335-340 | The selection is within budget and no block left out would still fit |
| Residents.GreedyIsHalfOptimal | engine/src/engine.rs:322-340 | It keeps at least half of what any selection within the budget could |
| Residents.GreedyIsOptimalOnChains | engine/src/engine.rs:322-340 | It is optimal whenever every size divides every larger one |
| Residents.TwoSizesCounterexample | engine/src/engine.rs:322-326 | For any two sizes that do not divide, distinct blocks and a budget on which greedy is not optimal (one of size 3, two of size 2, budget 4) |
| Residents.TwoSizesExactly | engine/src/engine.rs:322-326 | With two block sizes greedy is optimal on all lists of distinct blocks and all budgets if and only if the smaller divides the larger |
| Selection.GreedyIdsAreTheChoice | engine/src/engine.rs:327-340 | On the engine's order and bytes: residents come out largest first, equal sizes in execution order, and each block is kept exactly if it still fits behind the kept blocks looked at before it |
| Selection.SelectionFillsBudget | engine/src/engine.rs:322-340 | Their bytes are within the budget, no other block of the order fits beside them, and any distinct blocks within the budget have at most twice as many |
| NextUse.NextUseDistances | engine/src/engine.rs:484-500 | One distance per block in order, counted from the first position of the id; an unknown id is an error |
| NextUse.DistanceIsNextUse | engine/src/engine.rs:468-483 | Running the order in a cycle from the current block reaches a block after exactly its distance, then once per cycle, never in between |
| NextUse.DistancesAreAPermutation | engine/src/engine.rs:491-499 | The distances are 0 to n - 1, each once |
| Shards.LittleEndianReads | src/shard.rs:73-75 | The value read from the length prefix is the number whose base-256 digits, least significant first, the bytes are, and no other |
| Shards.PrefixDecides | src/shard.rs:73-88 | A file whose first eight bytes are the digits of n is refused as too large, with n and the limit, if and only if n exceeds the limit, and for its header only otherwise |
| Shards.OpensExactly | src/shard.rs:66-88 | Under the header contract a file opens if and only if it has a header whose own length is within the limit; below eight bytes it is too small |
| Shards.RangesExactly | src/shard.rs:109-143 | Any range is refused exactly when an end is beyond the largest 64-bit number, and read exactly when it is ordered and inside the file |
| Shards.RangesAreSafe | src/shard.rs:50-143 | Once a file is open no tensor's range overflows u64 or leaves the file, and its bytes are its payload |
| Checkpoint.AddListed | src/model.rs:118-130 | Adding a shard's listed names succeeds if and only if each is in its header and new; the table grows by exactly those names; the error is that of the first name that is not, with both paths of a duplicate |
| Checkpoint.FindUnlisted | src/model.rs:132-140 | Finds a header name that was not listed, if there is one |
| Checkpoint.AddShard | src/model.rs:106-141 | A listed shard is accepted if and only if it resolves, opens and holds exactly the names assigned to it; the error is the resolver's, the file's, the least listed name the header lacks, or a name of the header that was not listed |
| Checkpoint.OpenIndex | src/model.rs:94-142 | Opening through an index succeeds if and only if every listed shard agrees; the table then has exactly the index's names, each in its assigned shard; the error is that of the first shard in name order that does not agree, and never a duplicate name |
| Checkpoint.AddWholeFile | src/model.rs:143-157 | A file opened whole is accepted if and only if it opens and shares no name with the table; the error is its own or its least shared name, with both paths |
| Checkpoint.OpenImplicit | src/model.rs:143-157 | Implicit shards succeed if and only if all open and no name occurs twice; the table then has all their names; the error is that of the first file that does not open or repeats a name |
| Names.LexMeans | src/model.rs:86-86 | The name order is lexicographic: a prefix comes first, otherwise the first place where two names differ decides |
| Names.SortNames | src/model.rs:86-86 | The names once each in ascending order |
| Names.ListingUnique | src/model.rs:77-77 | There is only one such listing |
| Models.OpenSingle | src/model.rs:81-93 | A single file opens if and only if its shard opens, and all its names are in the table |
| Models.OpenWith | src/model.rs:74-165 | Opening succeeds exactly when the input agrees with itself; success takes a fresh model id, failure none and says which file and name was at fault |
| Models.TensorBytesArePayload | src/model.rs:199-206 | A known tensor's bytes are its payload, as long as its descriptor says; an unknown name is the only error |
| Models.ModelBlocks | src/model.rs:216-225 | The result is the grouping of the table's tensors in name order, every block stamped and made of this model's descriptors |
| Models.ModelBlock | src/model.rs:230-238 | The looked-up block, stamped and made of this model's descriptors, or not found |
| Models.BlockViews | src/model.rs:257-266 | The views of any block's tensors in order; another model's block is refused, and the first tensor the model does not know is the other error |
| Copies.LayoutFinds | src/model.rs:307-310 | The part of a copied block that a layout entry names is that tensor's bytes |
| Copies.CopyBlockInto | src/model.rs:289-313 | For any block: too small a slice or a foreign block is refused with nothing written; else tensors are copied one after another up to the first unknown one, an error, or the first whose edited length does not match or fit, a panic, and only what was copied changes; a block of the table's lengths never panics, and one the model knows is copied whole, with the prefix sums as layout |
| Copies.CopyBlock | src/model.rs:271-281 | The same bytes, layout, errors and panics in a buffer of exactly the block's size |
| Copies.ForeignBlock | tests/provenance.rs:20-41 | Two models opened from one counter differ in id: a block of the second is refused by the first, for views and for copies, and accepted by the second |
| Text.SplitJoined | src/block.rs:92-94 | Splitting a dotted join splits the halves |
| Text.LeadingParts | src/block.rs:95-100 | A name whose leading parts are a family's continues with a dot right after the family |
| Text.ValueByPlace | src/block.rs:238-240 | A digit string is read as the number with these decimal digits, the last character in the ones place |
| Text.ParseMeans | src/block.rs:238-240 | What parses as an index: digits below 2^64 with at most one plus sign before them |
| Text.DecimalReads | src/block.rs:115-117 | A printed number is canonical, has no dot and reads back as itself |
| Text.ReadsDecimal | src/block.rs:238-240 | A digit string is what is printed for its value if and only if it is canonical |
| Blocks.CandidateStrips | src/block.rs:84-90 | The configured prefix is stripped as a whole leading part, and nothing else ever is |
| Blocks.MatchesExactly | src/block.rs:93-107 | A family matches a name with an index if and only if the name is `family.digits` or goes on with a dot, the digits reading as that index below 2^64 |
| Blocks.MatchNameMeans | src/block.rs:83-110 | A name is matched to a family and index if and only if, without the configured prefix, it belongs there and to no earlier family |
| Blocks.BlockIdInjective | src/block.rs:115-117 | Ids determine family and index whatever dots the family contains, and never equal the unassigned id |
| Blocks.IdFindsModule | engine/streamloader_engine/__init__.py:65-67 | Splitting an id at its last dot gives back family and index |
| Blocks.NamedAfterBlock | src/block.rs:83-110 | A tensor named after a block id, behind the prefix if one is configured, belongs to that block unless an earlier family claims it |
| Grouping.FileAll | src/block.rs:147-167 | After one pass the nested table holds, per family and index, exactly the matching tensors in input order, and the rest is unassigned |
| Grouping.SortIndices | src/block.rs:145-147 | Indices come out strictly ascending |
| Grouping.BlocksOf | src/block.rs:174-183 | One family's blocks: every index in use, ascending, each with all its tensors |
| Grouping.GroupBlocks | src/block.rs:144-197 | Every block holds all tensors with its key, none is empty, families in configured order, indices ascending, unassigned last, nothing missing |
| Lookup.GroupingPartitions | src/block.rs:137-143 | With distinct families the blocks partition the tensors: as multisets nothing is lost or doubled, and no key occurs twice |
| Lookup.BlockKeepsOrder | src/block.rs:119-121 | A block's tensors are exactly the matching ones, at ascending places of the input |
| Lookup.IdsDistinct | src/block.rs:144-197 | With distinct families no two blocks share an id |
| Lookup.IdsDistinctExactly | src/block.rs:144-197 | Whatever families are configured: block ids are distinct if and only if no family that matches a tensor is configured twice |
| Lookup.GroupingDetermined | src/block.rs:144-197 | The guarantees admit only one result, whatever families are configured |
| Lookup.ListedIsFound | src/block.rs:208-258 | Every listed block is what the lookup returns for its id |
| Lookup.IndexInMeans | src/block.rs:232-240 | An id reads as an index of a family exactly if it is the family, a dot and what parses as that index |
| Lookup.FindMeans | src/block.rs:208-258 | What the lookup returns for any id, alias or not: all tensors of the family and index it reads as, in a block that keeps the id as asked for |
| Lookup.FindAgrees | src/block.rs:199-258 | Lookup agrees with searching all blocks if and only if the id is not an alias of an existing block |
| Lookup.PrintedIdsAgree | src/block.rs:199-258 | It agrees on every printed id of any family and index, and on the unassigned id |
| Lookup.LeadingZeroIsAnAlias | src/block.rs:232-240 | `layers.01` is found although only `layers.1` is listed |
| Pinned.SupportedKinds | engine/src/engine.rs:34-53 | The exportable types by the kind and width in their names: floats of 16, 32 and 64 bits, BF16, signed integers of 8 to 64 bits, U8 and BOOL |
| Pinned.SharedFirst | engine/src/engine.rs:213-219 | The shared block moves to the front, everything else keeps its order |
| Pinned.DescribeTensors | engine/src/engine.rs:259-270 | Each tensor's place is the block's offset plus its place in the block; the first unsupported dtype is the error |
| Pinned.FillPinned | engine/src/engine.rs:221-287 | Succeeds if and only if the blocks fit the budget and every dtype is supported, the first that is not being the error; the buffer then is all blocks' bytes end to end and the table says where each tensor lies |
| Views.LayoutTiles | engine/src/engine.rs:241-287 | The tensor ranges follow one another from 0 to the buffer's end |
| Views.EveryByteOnce | engine/src/engine.rs:241-287 | Every byte of the buffer belongs to exactly one tensor |
| Views.StartsAgree | engine/src/engine.rs:723-729 | The start used for transfers (first tensor) and for views (minimum) always agree; both are the running offset if and only if the block has a tensor or lies at the beginning |
| Views.ViewReadsTensor | engine/src/engine.rs:698-717 | A view at a tensor's distance from its block's start, in a buffer the block was sent to, lies within the block and reads the tensor's checkpoint bytes |
| Views.BuildTensors | engine/src/engine.rs:679-721 | One view per tensor at its device address; an unknown block or an unsupported dtype is an error |
| EndToEnd.HeldIsKnown | engine/src/engine.rs:607-652 | Whatever a buffer ever holds is one of the pinned blocks |
| EndToEnd.HandedOutReadsFiles | engine/src/engine.rs:698-717 | Reading at the device address of each handed-out view, in a buffer holding its block, finds the payload that the tensor's own file's header assigns to it, with that dtype and shape |
| EndToEnd.GetBlockTensors | engine/src/engine.rs:514-532 | The engine's transition, then one view per tensor in the block's own buffer; the errors of either step |
| EndToEnd.GetShared | engine/src/engine.rs:534-539 | The views of the shared block in the shared buffer, or none when there is no such buffer |
| EndToEnd.KernelsReadTheCheckpoint | engine/src/engine.rs:514-721 | For any disciplined client and any interleaving, a running kernel's buffer is not being written and reading through its block's views there finds every tensor's file payload |
| EndToEnd.AttachReadsTheCheckpoint | engine/streamloader_engine/__init__.py:69-95 | The same for the installed schedule, whenever the rehearsal is clear, from device address to file payload |
| EndToEnd.StaticBuffersReadTheCheckpoint | engine/src/engine.rs:291-374 | For any client that asks for no oversized block, reading through the views of the shared and the resident blocks finds the file payloads at every moment |
| Startup.OrderedBlocks | engine/src/engine.rs:213-219 | The blocks to pin are the model's grouping with the shared block in front; their ids are distinct if and only if no family that claims a tensor is configured twice |
| Startup.OrderListsBlocks | engine/src/engine.rs:273-277 | The execution order has ascending places among the pinned blocks, exactly those of the blocks that are not the shared one, and lists their ids |
| Startup.OrderFollowsFamilies | engine/src/engine.rs:450-452 | So the engine runs families in configured order and the blocks of a family by ascending index |
| Startup.ArrangedIsPlaced | src/block.rs:144-197 | Every tensor of the checkpoint is in the pinned block of the family and index its name matches, or in the shared block |
| Startup.FluxIsPlaced | engine/src/engine.rs:209-212 | Without families named, tensors called `transformer_blocks.i.` or `single_transformer_blocks.i.` and more are in the blocks of these ids |
| Startup.ArrangedHasSharedInFront | engine/src/engine.rs:213-219 | No pinned block but the first can be the shared one |
| Startup.EveryTensorIsArranged | engine/src/engine.rs:213-287 | Every tensor of the checkpoint is in one of the pinned blocks |
| Startup.NamesOnce | engine/src/engine.rs:697-718 | Within a block no tensor name occurs twice, so no view is lost |
| Startup.SelectResident | engine/src/engine.rs:327-340 | The resident ids are streaming-order blocks, each once if the order has no repeats; on the engine's own bytes they are the greedy choice and fill the budget as above |
| Startup.NewEngine | engine/src/engine.rs:188-430 | An opened checkpoint fixes the model and the blocks to pin, every tensor in the block its name says under the families named, or FLUX's; start-up succeeds exactly when it opens, those blocks fit the budget and their dtypes are supported, and otherwise says what failed; the engine is then in its boot state, its order lists exactly the pinned blocks that are not shared, its residents are the greedy choice, and it serves the blocks if their ids are distinct |
| Startup.OpenBlocks | engine/src/engine.rs:188-219 | The first half of that: opening takes a fresh id and groups every tensor, or says what was at fault |
| Startup.PinnedIsServable | engine/src/engine.rs:697-718 | Every block start-up pins can be handed out: its tensor names are distinct and its dtypes have a descriptor |
| Startup.StartedReadsTheCheckpoint | engine/streamloader_engine/__init__.py:15-95 | From the constructor's result to file payloads: every pinned block can be handed out, and whenever the rehearsal is clear, a running kernel reading through its views finds every tensor's payload, in any interleaving of the installed schedule |
| Shutdown.RunIsTidy | engine/src/engine.rs:731-734 | Whatever the client does, every write in the log goes to an allocated buffer and is ended right after it is begun |
| Shutdown.DropIsQuietExactly | engine/src/engine.rs:751-759 | For any client: once the transfer stream has drained no kernel is running, in any execution, if and only if the transfer stream was told to wait for every launched kernel; a synchronising effect of freeing itself (`free_sync`) is outside the model |
| Shutdown.DropIsSafe | engine/src/engine.rs:736-761 | For any client that asks for no oversized block: with the transfer stream drained no write is under way and none ever left its slot; exactly the allocated buffers are freed, once each, and nothing else was ever written; no kernel is running either exactly under the condition above |
| Shutdown.KernelMayOutliveTheBuffers | engine/src/engine.rs:751-759 | On a fresh engine, getting a block and launching on it already fails that condition: some execution frees the buffer under the running kernel, freeing taken as not synchronising |
| Shutdown.AttachIsNeverQuiet | engine/streamloader_engine/__init__.py:69-95 | The installed hooks fail it after any number of passes: nothing waits for the last block's kernel |
| Shutdown.DrainedComputeIsQuiet | engine/src/engine.rs:751-759 | With the compute stream drained too, no kernel would be running |
| Dlpack.MakeKeeps | engine/src/dlpack.rs:149-198 | A new export is held by its capsule and frees nothing; a failed one leaves every holder and live box as they were, its own two boxes made and freed |
| Dlpack.ImportKeeps | engine/src/dlpack.rs:9-14 | Importing an unclaimed capsule passes its descriptor on to the new tensor, frees nothing, and leaves any other capsule alone |
| Dlpack.DestroyKeeps | engine/src/dlpack.rs:86-105 | Destroying a capsule frees exactly the descriptor it holds, with its shape, and nothing if it holds none |
| Dlpack.CollectKeeps | engine/src/dlpack.rs:76-84 | Collecting a tensor frees its descriptor and its shape together |
| Dlpack.NeverFreedTwice | engine/src/dlpack.rs:76-105 | In every order of events no box is freed twice and nothing a holder can reach has been freed |
| Dlpack.FreedWhenUnheld | engine/src/dlpack.rs:9-24 | Box by box, in every order of events: a box ever made has been freed if and only if no holder keeps it |
| Dlpack.Exporter.MakeCudaCapsule | engine/src/dlpack.rs:149-198 | The exporter's heap after creating a capsule, or after cleaning up a failed creation |
| Dlpack.Exporter.Deleter | engine/src/dlpack.rs:76-84 | Frees the shape box and the descriptor; nothing for a null pointer |
| Dlpack.Exporter.FromDlpack | engine/src/dlpack.rs:9-14 | An unclaimed capsule is renamed and its descriptor handed to a new tensor; a claimed one is refused |
| Dlpack.Exporter.DropCapsule | engine/src/dlpack.rs:86-105 | The destructor frees an unclaimed capsule's descriptor and nothing for a claimed one |

## Left out

- The CUDA driver, PyTorch, PyO3 and DLPack memory layout: a stream is a queue of commands, a kernel reads one block from one buffer, and driver errors are not modelled.
- The SafeTensors header parser, JSON parsing, memory mapping and file reads: a file is its bytes and the parser's verdict, and an accepted header is assumed to have the length its prefix spells and ordered offsets inside the payload.
- Path resolution, symlink rules and directory scanning: an index comes with the file, or the error, each listed shard resolves to.
- The command line, checksums, JSON output, benchmarks, elapsed times and the pinned, VRAM and resident byte statistics.
- Memory past the end of a slot: calls of `prefetch` and `get_block` with a block the ring is not sized for are shown to overrun their slot, and results about the static buffers and `Drop` assume none is made; counting results take ids from `block_ids()`.
- Skipped, repeated or re-entrant forward passes of the installed schedule; any other client is covered by `Safety.DisciplineIsSafe`.
- Sums of block sizes and the statistics counters are unbounded; the u64 overflow checks of the range arithmetic are modelled.
- Zero-byte blocks in the optimality results on dividing sizes, which need positive sizes; budget, maximality and the factor of two hold for all sizes.
- Streaming with repeated block ids, which a repeated family that claims tensors leads to: what start-up then builds is stated, what the schedule then does is not.
- Rehearsal.RehearsalDecides: its number of passes is that of all possible windows; a smaller one is not proved, `Rehearsal.RepeatDecides` stops at the first repetition.
- Whether freeing device memory (`free_sync`) waits for running kernels is the driver's business.
- `Drop` frees slots in the order of a hash map; the model fixes an order.
- Engine.RustEngine.GetBlock: returns the buffer and its event; the tensor views are `EndToEnd.GetBlockTensors`.
- Foreign renamings of a capsule: only the first name and the name an import gives occur.
