# Expert tiers, speculative decoding and their readers: a model and its proofs

A single-sequence inference engine keeps the weights of a mixture-of-experts model on disk, in RAM and in VRAM, moves
them between the three while it decodes, and lets a step carry drafts that may be taken back. This project models the
parts where that can go wrong and proves what they promise. `dafny verify dfyconfig.toml` checks all of it.

Weights are not bytes here but identities: a piece of memory holds a part of an expert of a layer, in the file's
arrangement or in the device's, or nothing of use. Queued device copies are pending operations: those of the compute
queue apply in order, those of the side queue in any order, both at any time. Everything random or timed -- sampled
victims, which read lands first, which thread runs -- is an arbitrary choice, so what is proved holds for all of them.

| file | models |
|---|---|
| `Hardware`, `TierState`, `TierSteps` | memories, queues, the state of the expert cache and each of its steps |
| `TierProofs`, `TierReads`, `TierRuns`, `RunKeeps` | the invariant, that no read and no expert is lost, all interleavings |
| `TierFetch`, `TierRoom`, `TierAhead`, `Victims` | what a fetch, a warm-up, reads ahead and a promotion may take and must bring |
| `ExpertCache` | the cache as the engine drives it: a class whose methods keep the invariant |
| `MoeSplit`, `DecodeLayer` | a layer's mixture over graph, late fold and CPU; a whole token |
| `Strays`, `Orphans`, `GivenUp` | slots that name an expert mapped elsewhere, batches given up: when, and what they break |
| `BatchTerms`, `BatchLayer` | the cache-batched prompt: a mixture in chunks of a tier term and a scratch term |
| `SparseDecode`, `PromptBias`, `DecodeBias` | block-sparse attention and the biases that steer it |
| `DecodeRuns`, `DecodeState`, `CheckpointBuffer` | the decode state as a value and in the engine's buffers, rollback, checkpoints |
| `Lookup` | the suffix index that drafts from the history |
| `IoEngine`, `SpeculativeReads`, `PrefillReader` | the worker pool, the table of speculative reads, the double-buffered reader |
| `DioLayout`, `Overlay`, `ReadRuns`, `LayerUpload`, `SoaLayout` | direct-I/O slots, writes in any order, a layer staged and uploaded, device byte order |
| `Utf8Gate` | the text gate and its cut |

## Model

| member | source | states |
|---|---|---|
| TierRuns.RunNeverWrong | src/qwfn_expert_cache.cpp:806-953 | In every state of every interleaving of sheltered promotions, settles, refills, landing reads and queue steps: a mapped VRAM slot holds its expert in device layout once the compute queue drains; a mapped RAM slot holds it in the layout its flag says, or is landing from a busy staging entry that holds it, or has a read coming exactly when no failed fetch abandoned it; an expert is in both tiers only while a swap that frees its RAM slot is pending. |
| TierRuns.RunGoodIff | src/qwfn_expert_cache.cpp:657-703 | A run keeps the invariant throughout exactly when no slot is marked valid before its whole block is there and no promotion's own source slot comes back as its victim's destination while its block is in the device's layout (choose_victim clears the layout flag of the slot it returns). |
| TierRuns.RunCannotHappen | src/qwfn_expert_cache.cpp:519-546 | The branch of finish_swap marked "cannot happen" is never entered. |
| TierRuns.RunAbandons | src/qwfn_expert_cache.cpp:1125-1126 | Only a failed fetch abandons a block: a run without one abandons nothing, so each of its mapped slots has its block or a read of it. |
| TierRuns.RunVersion | src/qwfn_expert_cache.cpp:2000-2015 | A residency table built at one point of a run is the table wherever later the version is the same. |
| RunKeeps.RunRings | src/qwfn_expert_cache.cpp:534-546 | No staging entry is lost: a busy one is that of a pending swap or of a read-back under way, so once neither is left all are free. |
| RunKeeps.PinnedStays | src/qwfn_expert_cache.cpp:657-703 | No step of a run takes a pinned slot from its expert but the settle of the expert's own promotion, or of the victim's that was put there. |
| TierProofs.PromoteSafeIff | src/qwfn_expert_cache.cpp:868-886 | One promotion keeps the tiers exactly under that condition. |
| TierReads.FailedFetchLeaves | src/qwfn_expert_cache.cpp:1125-1126 | The input: one RAM slot and two misses; the fetch fails and the first expert stays mapped to a slot nothing fills and nobody can refill. |
| TierReads.FinishConserves | src/qwfn_expert_cache.cpp:519-546 | Finishing a swap loses nobody: every resident stays resident in one tier or the other, and the victim is resident again unless it had no slot to go to. |
| TierReads.SettledDisjoint | src/qwfn_expert_cache.cpp:1450-1471 | With no swap pending, RAM and VRAM map different experts. |
| TierReads.RereadLeavesOrphan | src/qwfn_expert_cache.cpp:1348-1385 | The input: an expert in flight read again into a second slot leaves the first one naming it. |
| Orphans.RunOrphanIff | src/qwfn_expert_cache.cpp:1125-1140 | A run without orphaned RAM slots -- naming an expert whose map points elsewhere -- stays so exactly when no slot is ever taken for an expert that RAM maps already. |
| Orphans.RunTakesOwn | src/qwfn_expert_cache.cpp:1128-1131 | In a run without orphans refilling a slot drops the map entry of an expert exactly when that slot is the expert's own. |
| GivenUp.GivenUpIff | src/qwfn_expert_cache.cpp:1226-1290 | Whatever slots it adopts, a batch given up after these experts leaves the tiers telling the truth exactly when none of them that neither tier serves could be given an empty slot with other bytes in it. |
| TierFetch.GivenUpBatch | src/qwfn_expert_cache.cpp:1237-1240 | The input: an adopted slot, then an expert out of range; the slot says it holds what nobody has read. |
| ExpertCache.Cache.FetchBegin | src/qwfn_expert_cache.cpp:961-1202 | Every expert of the fetch gets a handle whose slot names it and is protected; a VRAM resident without a stray slot keeps its slot, a promoted one is marked late, no two share a slot, promotions stay within the budget, and with budget left the first block that is there comes into a vacant tier; no new stray slot appears and the other layers stay as they were. It succeeds whenever the layer has as many slots to spare as experts without a safe place in VRAM; if it fails, no slot may be refilled and what it abandons is exactly the slots its misses so far took. |
| ExpertCache.Cache.FetchEnd | src/qwfn_expert_cache.cpp:1292-1340 | Everything handed out is there: complete file-layout bytes for a CPU handle, the device's for a VRAM one; what is read again is exactly what a failed fetch had abandoned; reads ahead have landed or are still on their way. |
| ExpertCache.Cache.FetchBatch | src/qwfn_expert_cache.cpp:1226-1290 | It succeeds exactly when every expert exists, evicts nobody, leaves the VRAM tier alone, and every source holds its expert on return; on failure it leaves the slots its turns adopted marked valid early (GivenUp.GivenUpIff says when that matters). |
| ExpertCache.Cache.TryPromote | src/qwfn_expert_cache.cpp:806-953 | A promotion from a slot that is listed, protected, in file layout, or into a tier with nothing to displace keeps the invariant, and its victim is housed: in a listed empty slot if there is one, its bytes queued out before the upload; without any slot only when none may be refilled or the promoted block's own was sampled. A refused one changes nothing, and a vacant tier that is not lent refuses none. |
| ExpertCache.Cache.PromoteAndSettle | src/qwfn_expert_cache.cpp:857-954 | Over a promotion and the settle after it every resident stays resident while a listed slot is empty; otherwise at most one does not: the owner of the slot refilled for the victim, or the victim when no slot could be. |
| Victims.PromotionHouses | src/qwfn_expert_cache.cpp:867-891 | The same of the step as a run takes it: the swap's slot is a listed empty one if any is, else the sampled one unless that is the block's own; it names the victim, every other listed empty slot stays listed, and the copy out of VRAM comes before the upload. |
| ExpertCache.Cache.FinishSwap | src/qwfn_expert_cache.cpp:519-546 | The oldest swap's metadata is finished as specified, every resident stays resident, the VRAM tier is untouched. |
| Victims.FinishFrees | src/qwfn_expert_cache.cpp:507-530 | The slot a promoted block came from is unmapped, empty and, if the list has room, listed for the next victim. |
| ExpertCache.Cache.SettlePromotions | src/qwfn_expert_cache.cpp:1450-1471 | Nothing is under way any more, every pending swap's victim has its place, the tiers are disjoint, nobody was lost. |
| ExpertCache.Cache.SettlePromotionsLayer | src/qwfn_expert_cache.cpp:1504-1527 | The decode loop's settle: the same but for read-backs queued one layer ago, which have landed, and this layer's, which are queued. |
| ExpertCache.Cache.LendBegin | src/qwfn_expert_cache.cpp:1657-1701 | Every copy has landed before a layer forgets its VRAM; the lent layers map nobody there; the others keep their VRAM tier and lose no resident. |
| ExpertCache.Cache.LendEnd | src/qwfn_expert_cache.cpp:1703-1763 | The tiers come back with nothing a promotion may displace, and somebody in each that has slots and a candidate in RAM; the refill evicts nobody and leaves the other layers alone. |
| ExpertCache.Cache.LendRestore | src/qwfn_expert_cache.cpp:1769-1844 | The next layer's batch is read beside the uploads; no batch displaces what an earlier one or the refill brought; a vacant tier whose batch comes first gets somebody if its first expert is nowhere and a slot may be refilled. |
| ExpertCache.Cache.Warm | src/qwfn_expert_cache.cpp:1846-1931 | A prompt's experts enter RAM with every invariant kept: with as many slots to refill as items, each item that no slot but its own names is in RAM with its block afterwards; who comes into VRAM is one of the first items, and a vacant tier gets somebody. |
| ExpertCache.Cache.PrefetchBegin | src/qwfn_expert_cache.cpp:2022-2101 | Reads ahead beside a fetch leave its handles, what it waits for and the VRAM tier as they were; a prediction that is not in VRAM and that no slot names has a read on its way afterwards, or no slot of its layer may be refilled. |
| ExpertCache.Cache.RamResidentSlices | src/qwfn_expert_cache.cpp:1409-1423 | Exactly the valid slots their experts' maps point to, each with its expert's bytes in file layout in memory now. |
| ExpertCache.Cache.VramTable | src/qwfn_expert_cache.cpp:2004-2015 | The table is exactly the VRAM residents, each with a slot that holds it. |
| MoeSplit.SplitSum | src/qwfn_engine.cpp:2456-2466 | Graph, fold and CPU rows add up to every expert's weighted output as often as table and handle make it counted. |
| MoeSplit.SplitExactIff | src/qwfn_engine.cpp:2702-2762 | The step is the routed mixture whatever the experts put out exactly when every expert a position weighs is computed once. |
| MoeSplit.CpuSum | src/qwfn_engine.cpp:3049-3099 | Whichever rows were ready first, the CPU's result is the one left-to-right sum over the selection order, addition uninterpreted. |
| MoeSplit.LateFold.Upload | src/qwfn_engine.cpp:2853-2885 | After an upload, skipped or not, the fold's rows are the late experts' slots and weights followed by zero weights. |
| DecodeLayer.Decode | src/qwfn_engine.cpp:2702-2762 | A layer's experts, fetched while others are promoted, read ahead and evicted, each count once; asked of the routed experts only: no VRAM slot their map does not point to. The layer is served while it has as many slots to spare as routed experts without a safe VRAM place, and is given up only when no slot may be refilled; what was predicted and nowhere is there or on its way afterwards. |
| DecodeLayer.AddUp | src/qwfn_engine.cpp:2853-2885 | Dealing the handles, uploading the late rows and summing the CPU rows gives, with the graph's part, the routed mixture. |
| DecodeLayer.DecodeToken | src/qwfn_engine.cpp:3133 | Layer after layer with a settle between, all of them: each mixture is exact and each layer leaves the cache fit for the next. It ends before the last only where a layer without room at its turn finds no slot to refill. |
| DecodeLayer.EvalDecode | src/qwfn_engine.cpp:3868-3874 | A step of T positions with the promotion budget scaled by T: all layers under the same condition, every layer's mixture exact and its late experts always fitting the fold's rows, so the engine's abort for too many is never reached. |
| Strays.StaysIff | src/qwfn_expert_cache.cpp:978-1001 | However the turns of other experts go, a VRAM resident of the fetch stays where the table found it exactly when no other VRAM slot last used before this fetch names it (given somebody else to promote). |
| Strays.OnceIff | src/qwfn_engine.cpp:2750-2759 | It is computed once, whatever its fetch does before it comes to it, exactly under the same condition. |
| Strays.ListedTwiceStrays | src/qwfn_expert_cache.cpp:1738-1761 | The input: an expert listed twice for a refill is promoted into two VRAM slots. |
| Strays.RunStrayIff | src/qwfn_expert_cache.cpp:806-953 | A run without stray VRAM slots stays so exactly when each promotion is of an expert not in VRAM, or over its own slot. |
| BatchLayer.CacheBatch | src/qwfn_engine.cpp:3179-3312 | The chunks fetched through the cache: for distinct experts per token the terms over the VRAM slots and over the packed scratch add up to each token's full routed sum, and those slots hold the experts the terms take them to hold; every id row is full of pairwise distinct slots and padding has weight 0. |
| SparseDecode.VerifyStep | src/qwfn_graph.cpp:704-837 | Each position of a verify step sees the same visible cells with the same result whether the step writes everything first or runs position by position. |
| SparseDecode.BatchedIsChained | src/qwfn_graph.cpp:620-698 | The caches are the same either way. |
| SparseDecode.AnyBucket | src/qwfn_engine.cpp:880-948 | The bucket a graph is shaped for, and a budget cut to it, change nothing a position sees. |
| SparseDecode.SeesItself | src/qwfn_engine.cpp:899-903 | The block a position is in is always selected while it is incomplete, so the position sees itself. |
| SparseDecode.SelectsAt | src/qwfn_graph.cpp:649-653 | Of the blocks that end by the position those of the highest scores are selected, the lower index first where scores are equal; one that begins after it only beside every other, the incomplete one it is in always. |
| SparseDecode.SelectionSize | src/qwfn_graph.cpp:652 | Exactly as many blocks are selected as asked for, or all. |
| SparseDecode.PoolsCells | src/qwfn_graph.cpp:620-638 | The pooled key of a block that a verify step completes is that of its r cells' keys in order, those before the step and the step's own. |
| DecodeRuns.AnswerSees | src/qwfn_graph.cpp:704-837 | What a position's attention is given, by cell: the K/V rows of the cells not after it in as many blocks as the budget says, chosen by score of the pooled keys of their own r cells. |
| PromptBias.Filled | src/qwfn_engine.cpp:1155-1170 | The host's filled ranges with the lowering pass are the closed-form bias. |
| PromptBias.Looped | src/qwfn_engine.cpp:2195-2225 | The other host loop gives the same. |
| PromptBias.FormulaIs | src/qwfn_graph.cpp:347-364 | So does the device formula. |
| PromptBias.SelectsByWord | src/qwfn_graph.cpp:309-323 | For scores from 0 up to a bound of a billion a selected block has the greater sum of score and stored bias than one left out, or the same sum and the lower index. |
| PromptBias.OneForced | src/qwfn_graph.cpp:340-359 | At most the query's own block is forced. |
| PromptBias.AfterLast | src/qwfn_graph.cpp:315-326 | A block wholly after the query is selected only if every block at or before it is. |
| PromptBias.Dense | src/qwfn_graph.cpp:315-326 | While the context has at most top_k + r - 1 cells, every cell of it is in a selected block. |
| PromptBias.DenseIff | src/qwfn_graph.cpp:315-326 | Every block is selected exactly while the context fits the whole blocks the selection is rounded up to. |
| DecodeBias.PatchExactIff | src/qwfn_engine.cpp:3823-3853 | Rewriting three blocks of the bias per step is exact for every step of up to four positions exactly when a block holds three cells or more. |
| DecodeBias.BucketIs | src/qwfn_engine.cpp:899-907 | A step's graph is shaped for all blocks, or for the least multiple of 256 that is 768 or more and holds the position's block. |
| DecodeBias.BudgetForgets | src/qwfn_engine.cpp:880-948 | The selection budget at a position is independent of what came before exactly when it fits the smallest bucket or every bucket is the whole context. |
| DecodeRuns.RunBudget | src/qwfn_engine.cpp:904-908 | After any calls the budget is the initial one cut to the bucket of every step taken; nothing brings it back. |
| DecodeState.Decoder.Decode | src/qwfn_engine.cpp:3855-3875 | From any state any calls lead to, stale rollbacks included, with the position not below zero: what each position's attention gives is what bias, bucket and pooled keys made anew from the rows give; the new rows, recurrent state, histories, snapshots and budget are functions of the old ones and the tokens; and from a state that is the tokens' the answer is a function of the tokens up to the position. |
| DecodeState.DerivedIsRebuilt | src/qwfn_engine.cpp:880-948 | Whenever they are not marked for a rebuild, the pooled keys of whole blocks are those a rebuild from the rows gives and the bias is that of a position at most four back. |
| DecodeState.Decoder.Rollback | src/qwfn_engine.cpp:3877-3906 | Every rollback the depth lets in: the memory comes back from n tokens before the end of the last step, rows and tokens lose their last n, and all that is derived is right for what is left; with more tokens taken back than kept, the position is below zero. |
| DecodeState.Decoder.Save | src/qwfn_engine.cpp:819-845 | The checkpoint of any state opens to its rows, recurrent state and histories. |
| DecodeState.Decoder.Restore | src/qwfn_engine.cpp:847-874 | A checkpoint of a fitting size puts back what it holds, over any state, one after a stale rollback or below position zero included. |
| DecodeState.Do | src/qwfn_engine.cpp:802-874 | Each call -- step, prompt, rollback, reset, save, restore -- takes the decoder and its checkpoints exactly where the value-level run says. |
| DecodeState.Session | src/qwfn_engine.cpp:3855-3906 | After any calls on a fresh decoder its state is the run's, everything derived is right, and it is the tokens' state where the caller's notes say so. |
| DecodeState.LeaveAndReturn | src/qwfn_engine.cpp:813-874 | Saving, any calls whatever, and restoring, from any state: the next step's rows, memory and answers are those that would have been, up to the budget; with a budget BudgetForgets allows, the same answers. |
| DecodeRuns.RightIff | src/qwfn_engine.cpp:3877-3906 | After any calls, rollbacks let in by the depth alone and checkpoints taken in wrong states included, the state is that of the tokens kept, whatever the model computes, exactly when notes kept from the tokens alone say so. |
| DecodeRuns.RollbackUndoes | src/qwfn_engine.cpp:3877-3906 | From any past: a step taken back by fewer tokens than it has, as far as there are snapshots, leaves the tokens, rows, recurrent state and histories the step without them would have. |
| DecodeRuns.HistoryIs | src/qwfn_engine.cpp:3855-3875 | A convolution's history after a step holds the inputs of the last positions in order, those before the step where it goes back that far. |
| DecodeRuns.RollbackIff | src/qwfn_engine.cpp:3877-3878 | A rollback let in gives the state of the other tokens, whatever the model, exactly when the last step began right, the tokens kept agree with those right after it but for the last n, and the rows left are theirs. |
| DecodeRuns.StaleIff | src/qwfn_engine.cpp:802-811 | After streamed prompts, resets, saves and restores since that step, exactly when they left those tokens and rows as they were; right after the step, always. |
| CheckpointBuffer.State.Restore | src/qwfn_state.cpp:106-131 | Every recurrent state and history is as the checkpoint's as a whole; every cache has the checkpoint's rows of the first n tokens and keeps its others. |
| CheckpointBuffer.State.SaveAndRestore | src/qwfn_state.cpp:125-131 | The same over a save, any bytes written to any tensor, and the restore. |
| CheckpointBuffer.State.CheckpointBytes | src/qwfn_state.cpp:119-123 | The size is a row of every cache for each token and every state and history once, which is what saving writes. |
| CheckpointBuffer.OneState | src/qwfn_state.cpp:119-131 | A buffer is the checkpoint of one committed state only: the same first n rows of every cache, the same states and histories as a whole. |
| Lookup.Drafter.FindSlot | src/qwfn_lookup.cpp:38-50 | The key's slot, or the empty one it is put in, or none because its run of probes is taken. |
| Lookup.EndsAll | src/qwfn_lookup.cpp:52-63 | The end positions of a key are all of them, newest first. |
| Lookup.EndsOfTrigram | src/qwfn_lookup.cpp:33-36 | For a hash that tells trigrams apart beyond its lowest bit, the ends of a position's key are all positions the same three tokens end at. |
| Lookup.Drafter.Append | src/qwfn_lookup.cpp:52-63 | A key once indexed stays found, and its entry is exactly the most recent end positions, newest first, at most four. |
| Lookup.Drafter.Propose | src/qwfn_lookup.cpp:65-87 | The continuation of a longest capped match among those positions, the newest on ties, equal token by token. |
| IoEngine.ExactlyOnce | src/qwfn_io.cpp:422-462 | Over every interleaving, malformed requests included, no tag comes back more often than submitted, and at rest every tag has come back once or waits for the next collector. |
| IoEngine.ReadFirst | src/qwfn_io.cpp:606-652 | A request's tag comes back no sooner than a worker has finished reading it, unless it names no shard, has no destination or asks for no bytes. |
| IoEngine.OnlyGoodRead | src/qwfn_io.cpp:430-446 | What is queued, being read or read was submitted, names a shard there is and has somewhere to put at least one byte; it is read no more often than submitted. |
| IoEngine.AllGoodRead | src/qwfn_io.cpp:606-652 | At rest exactly those requests have been read, each as often as submitted. |
| IoEngine.ReapDelivers | src/qwfn_io.cpp:526-544 | A reap delivers at least the smallest of its minimum, its maximum and what is undelivered, whatever the others do meanwhile. |
| IoEngine.NeverStuck | src/qwfn_io.cpp:606-652 | While a collector waits, some thread can move. |
| IoEngine.RunRests | src/qwfn_io.cpp:606-652 | Without new submissions the threads come to rest within a known number of steps. |
| IoEngine.Engine.Reap | src/qwfn_io.cpp:526-544 | The call ends under any scheduling and returns that many tags, once each. |
| SpeculativeReads.Table.PfReap | src/qwfn_expert_cache.cpp:1945-1973 | Outstanding reads always equal the unlanded pieces of live entries, a slot becomes valid only with its last piece and for its own expert, and the branch for a drifted count is never entered. |
| SpeculativeReads.Table.PrefetchBegin | src/qwfn_expert_cache.cpp:2022-2101 | Each new live entry is one of the predictions, not in VRAM, and the counts agree again. |
| SpeculativeReads.Table.Elsewhere | src/qwfn_expert_cache.cpp:2022-2101 | The table and its counts stand through whatever the rest of the cache does between two calls to slots no live entry holds. |
| SpeculativeReads.TakeUntouched | src/qwfn_expert_cache.cpp:657-703 | Giving a slot that is free or readable to another expert is of that kind. |
| SpeculativeReads.Table.SettleLayer | src/qwfn_expert_cache.cpp:1983-1987 | Afterwards no read of the layer is outstanding; the call ends under any scheduling and the counts agree. |
| PrefillReader.RunFront | src/qwfn_prefill.cpp:288-318 | Between two loads the reader never targets the front buffer, however supersession and read-ahead are timed. |
| PrefillReader.WaitHasRead | src/qwfn_prefill.cpp:390-412 | A waiting load has a queued or running read of its layer into exactly its buffer, or the read has ended. |
| PrefillReader.NeverStuck | src/qwfn_prefill.cpp:390-412 | Whoever sleeps, the other thread can move. |
| PrefillReader.LoadReturns | src/qwfn_prefill.cpp:390-412 | A load that returns true leaves the layer on the device, and whole in the front buffer exactly when it went to look for it or that buffer was tagged with it and ready. |
| PrefillReader.StreamerSound | src/qwfn_prefill.cpp:288-412 | While reads succeed, the layer that counts as loaded is always whole in front and on the device. |
| PrefillReader.Streamer.LoadLayer | src/qwfn_prefill.cpp:390-412 | The same of the call itself, which ends under any scheduling. |
| PrefillReader.Streamer.PrefetchLayer | src/qwfn_prefill.cpp:371-388 | A read-ahead takes the buffer behind the front exactly when the layer is in neither and nothing is queued or running, wakes the reader, leaves the front alone, and keeps the invariant of the two threads. |
| PrefillReader.PrefetchArrives | src/qwfn_prefill.cpp:288-318 | A read-ahead that the reader takes up and that succeeds leaves the layer whole and ready behind the front, and the front alone. |
| PrefillReader.Streamer.DropVramStaging | src/qwfn_prefill.cpp:340-350 | Each buffer but the one being read is forgotten if it left VRAM experts out; the invariant is kept. |
| PrefillReader.DropForgets | src/qwfn_prefill.cpp:340-350 | Dropping the staged layers that left VRAM experts out misses exactly the one being read at that moment. |
| DioLayout.MakeLayout | src/qwfn_expert_cache.cpp:102-139 | With aligned strides, parts placed one behind the other in 32-bit numbers hold every expert's padded read with the payload at one fixed offset exactly when the whole slot is such a number. |
| DioLayout.CoversIff | src/qwfn_io.h:45-54 | An aligned read covers what was asked for exactly when its size is a 32-bit number. |
| DioLayout.PushPieces | src/qwfn_expert_cache.cpp:636-648 | The pieces are the request cut at aligned places, in order and complete: as long as the k-th part rounded up to the alignment, the last one shorter, or the request itself where it is too short to cut. |
| DioLayout.PiecesSame | src/qwfn_expert_cache.cpp:636-648 | Any number of pieces, landing in any order, leave the memory the single read leaves. |
| Overlay.AnyOrder | src/qwfn_prefill.cpp:198-286 | Operations whose bytes are those that belong at their addresses give the same memory in any order and interleaving. |
| ReadRuns.Staged | src/qwfn_prefill.cpp:198-286 | However reads and copies interleave, every slice not in VRAM ends up as the file has it. |
| ReadRuns.Plan | src/qwfn_prefill.cpp:198-286 | The plan of a layer: aligned reads and copies inside the parts' stretches that provide every slice not in VRAM; a slice is copied exactly when the cache holds it and VRAM does not, and every read is in the aligned window of slices that neither holds. |
| ReadRuns.NothingElse | src/qwfn_prefill.cpp:198-286 | Nothing is written outside the parts' stretches. |
| ReadRuns.OrderFree | src/qwfn_prefill.cpp:198-286 | Two executions of one plan agree everywhere. |
| ReadRuns.WindowIsRequest | src/qwfn_io.h:45-54 | The aligned window the engine reads for a plan's request is the request itself, direct or through a bounce buffer. |
| LayerUpload.LoadLayer | src/qwfn_prefill.cpp:443-507 | Run uploads and device copies fill every expert of the layer and zero the tail, exactly when the buffer is large enough. |
| LayerUpload.ReadsStage | src/qwfn_prefill.cpp:546-576 | What a plan leaves in staging, in whatever order, is what the uploads need. |
| SoaLayout.SlotToFile | src/qwfn_expert_cache.cpp:583-600 | Every reordered part of a slot is put back in file order, in place; the other bytes stay. |
| SoaLayout.RoundTrip | src/qwfn_expert_cache.cpp:576-600 | What the device reordered from a file's bytes comes back as those bytes. |
| SoaLayout.DeviceUnique | src/qwfn_expert_cache.cpp:576-600 | A file's bytes have one device order only. |
| Utf8Gate.LooksLikeText | src/qwfn_files.cpp:19-38 | It accepts exactly the byte strings that, after an optional mark, are well-formed under section 4 of RFC 3629 and hold no NUL. |
| Utf8Gate.GrammarIsEncoding | src/qwfn_files.cpp:19-38 | That grammar's strings are exactly the encodings of sequences of code points. |
| Utf8Gate.AppendFile | src/qwfn_files.cpp:40-46 | For accepted text the cut keeps a well-formed prefix within the cap, at most three bytes short of it. |

## Findings

Each of these is a property one might expect of the code that does not hold of it, with its input and its exact
condition.

- A promotion from an unprotected RAM slot. `choose_victim` clears the layout flag of the slot it returns (line 701)
  before `promote` rejects its own slot (line 877), so device bytes would be reordered once more.
  `TierProofs.UnsafePromotion` is the input, `PromoteSafeIff` and `RunGoodIff` the condition. Every caller of the code
  meets it: a fetch and a warm-up list the slot as in use, a refill promotes into a tier with nothing to displace.
- A stray VRAM slot makes a layer count an expert twice. A tier refill lists an expert once per valid RAM slot, so one
  that two slots hold is promoted twice (`Strays.ListedTwiceStrays`, `MayListTwice`); a later fetch may take the stray
  as a victim and drop the map entry that points elsewhere (`StrayTaken`), after the graph has counted the expert
  (`TwiceIsWrong`). `StaysIff` and `OnceIff` give the condition, `RunStrayIff` when strays appear at all.
- A fetch that finds no slot for a miss returns before it submits the reads of its earlier misses. Their slots stay
  mapped and empty and cannot be refilled (`TierReads.FailedFetchLeaves`) until a fetch waits for them and reads them
  again (`FetchEnd`). `FetchBegin` says which slots those are, and that enough slots to spare rule it out.
- A batch with an expert out of range leaves the slots it adopted marked valid and unread (`TierFetch.GivenUpBatch`);
  `GivenUp.GivenUpIff` gives the condition under which it cannot.
- An expert in flight that is read again leaves an orphan slot (`TierReads.RereadLeavesOrphan`); refilling an orphan
  unmaps the expert's live slot (`EvictionUnmaps`). `Orphans.RunOrphanIff` says when orphans appear at all.
- The rollback depth outlives resets, restores and streamed prompts, and the rollback's only guard is that depth. It may
  leave a position below zero (`DecodeState.StaleRollback`), which the engine then decodes from without a check, or the
  memory of other tokens than those kept. `DecodeRuns.RightIff` gives the condition over all calls, `RollbackIff` and
  `StaleIff` for one rollback: a restore of the very tokens of the last decode step is harmless, a reset or a longer
  prompt is not (`StaleAfter`). What is derived from the rows stays right in every case, and a reset or a restore mends
  the rest.
- The block budget is cut to a bucket and never raised again, so with more than 768 selected blocks in a context of
  more than 768 a position's selection depends on earlier positions (`DecodeBias.BudgetSticks`, `BudgetForgets`,
  `DecodeRuns.RunBudget`).
- A bias window of three blocks misses blocks passed by a four-position step when blocks hold fewer than three cells
  (`DecodeBias.PatchMisses`, `PatchExactIff`).
- A load that had to read into the front buffer and failed leaves the old layer counted as loaded; the next load of it
  returns at once (`PrefillReader.StaleFront`). The front buffer's tag tells (`LoadReturns`, `LoadRightIff`).
- Slot offsets and padded sizes are 32-bit: `DioLayout.CoversIff` and `MakeLayout` say how far they reach.

## Left out

- ExpertCache.Cache.RamResidentSlices: asks that the layer be settled; the code waits for nothing here and its callers
  have settled.
- ExpertCache.Cache.LendEnd: asks that read-backs have landed when the tiers were lent, as lending sees to.
- ExpertCache.Cache.FetchBatch: what the caller's bounce buffer holds is not modelled.
- BatchLayer.CacheBatch: the chunks that a plain fetch serves when there is no bounce buffer are not modelled.
- DecodeLayer.AddUp: asks for no more late experts than the fold has columns; a narrower fold would overlap the next
  position's rows.
- DecodeState.Decoder.Decode: one attention layer, one recurrent layer and one per-layer-embedding convolution stand for
  all of their kind. It asks that the position not be below zero, as a caller must see to: the engine does not check,
  and would write before the caches' first row. `Prefill`, `Save` and `Do` ask the same.
- DecodeState.Decoder.Prefill: a prompt as one batch, streamed or through the cache; one the engine evaluates token by
  token is so many decode steps of one position.
- SpeculativeReads.Table.PrefetchBegin: the read window per layer is taken as large enough for a prediction; whether a
  slot is found for one is left open here (`ExpertCache.Cache.PrefetchBegin` says when).
- The tier runs and the class are separate: each method of the class that moves state equates its new state with the
  step function the run's event names, but no member derives a run from a sequence of calls.
- Reads and allocations that fail, short reads, shutdown: reads succeed except in the prefill reader, where failures
  are modelled.
- Floating point: weights and outputs are reals; where order matters addition is uninterpreted.
- The masks of the alignment functions, and the cut to 32 bits, are remainders in the proofs
  (`DioLayout.MaskIsRemainder` and `Low32Is` tie the two).
- A device slot of the prefill buffer is exactly one slice, as the code has it.
- The context length is a multiple of the block size.
- The cold checkpoint tier, the inclusive tiers, pinning at run time and the splitting of tiers between RAM and VRAM.
- Eviction scores, frequency counters, the policy that chooses between drafters, step-cost estimates, statistics.
- Kernels, quantisation, rotary positions, norms: uninterpreted functions.
- The io_uring and Windows backends of the I/O engine, memory locking, file parsing, tokenizer, server and tools.
- The prefill streamer without overlap, the skipping of misses, the multi-token-prediction head.
