# light-vllm: a Dafny verification model

This project models the request path of light-vllm, a small LLM inference engine, and proves
that its parts keep their promises to each other:

* **Paged KV manager.** A reference-counted page pool with a free heap, an LRU of evictable
  cached pages, a content index over chained prompt keys, block tables, reserve and commit, and
  two kinds of capacity claims (`PrefixKeys`, `BlockPool`, `PagedState`, `PagedInvariant`,
  `PagedRuns`, `PagedContents`, `PagedPromises`, `PagedRevision`, `PagedLineage`, `PagedClosure`,
  `PagedRace`, `PagedWatermark`; the class is in `PagedManager`). One invariant is kept by every operation;
  from it follow conservation of blocks, exact claims, write isolation, the completion guarantee
  and the agreement of cached pages with recomputation. A second one says when a cached page can
  be reached from the start of its prompt.
* **Tree and linear execution.** Draft trees verified in one pass, chunked prefill, greedy
  acceptance and cache compaction over an arbitrary layer stack (`Layout`, `Transformer`,
  `Chunks`, `DenseAttention`, `Speculative`, `Decoding`, `ContiguousCache`, `Leases`,
  `StepHandler`). Whatever chunks and drafts a run uses, it is plain greedy decoding, down to the
  buffers of the contiguous cache.
* **Engine step machine.** Schedule, execute, update, fail and end as separate sections of the
  driver, with registration, cancellation and closing between any two of them (`Scheduling`,
  `CacheProgress`, `Stream`, `EngineState`, `EngineRuns`, `EngineCancellation`, `EngineHistory`,
  `Generation`; the class is in `EngineCore`). Nothing in flight is taken away, every commit is accepted, no request is left
  without a driver, and every consumer sees the same stream however its tokens arrive.
* **Sharded arithmetic and streaming.** AWQ packing and its column and row shards, tensor
  parallel layers, grouped-query head mapping up to the whole attention layer, merged weight
  buffers, and the stop-string buffer (`TensorParallel`, `Awq`, `AwqStorage`, `Gqa`,
  `ShardedLayer`, `StopBuffer`).

`Collections` holds shared types and counting lemmas.

Code that updates fields in place is a class whose methods are proved against functions on
values; what the system promises is then proved about those functions, over all inputs or all
runs. A digest is the term that was hashed, so freedom from SHA-256 collisions is assumed. The
heap of free blocks is an ascending sequence and the LRU a sequence, oldest first. Projection,
attention over an ordered list of visible keys, the rest of a layer and the choice of a token are
arbitrary functions; a masked key has weight zero. Sums and products of weights are exact.

Some statements one might expect do not hold of the code; each has its exact condition.

* The prefix index need not contain the parent of an indexed page. It does over all runs in which
  each page a commit enters follows a page of its own table in the index; the release order of
  `src/light_vllm/runtime/kv_cache.py:607-608` is then enough. The first commit that does not can
  be followed by a run that evicts the parent (`PagedClosure.ClosedExactlyWhenInOrder`), and two
  requests racing on one prompt bring such a commit about (`PagedRace.IndexNotParentClosed`).
* A reservation inside an initial claim can be refused by the request's own watermark:
  `PagedRuns.InitialClaimHonoured` says when, `PagedWatermark.InitialClaimRefused` gives a run.
* The place of a stop cut can depend on the chunks: `StopBuffer.ChunkingInvisibleExactly`.
* A step result may pass validation and leave its request with nothing to compute, exactly for
  plans with lookahead: `Scheduling.StallsExactly`, `Scheduling.RunnableAgain`.

## Model

| member | source | states |
|---|---|---|
| PrefixKeys.KeyAgreesWithPrefix | src/light_vllm/runtime/kv_cache.py:661-695 | two prompts of any epochs have the same page key at an index exactly when they share the epoch and every token up to the end of that page |
| PrefixKeys.KeyChainHoldsPrefix | src/light_vllm/runtime/kv_cache.py:675-690 | key i of a prompt stands for its first i + 1 pages, of its epoch |
| PrefixKeys.DigestStandsForPrefix | src/light_vllm/runtime/kv_cache.py:677-689 | two chain digests are equal exactly when epoch, number of pages and all their tokens are |
| PrefixKeys.KeyChainIsLinked | src/light_vllm/runtime/kv_cache.py:677-690 | each key of a prompt continues the one before it, and the first starts the prompt |
| BlockPool.Take | src/light_vllm/runtime/kv_cache.py:725-738 | the smallest block of the free list, or with none free the oldest evictable page, leaves its place and the index, and the other list stays; the pool stays a partition with mutually inverse indexes |
| BlockPool.Acquire | src/light_vllm/runtime/kv_cache.py:740-743 | one more reference; an idle page stops being evictable |
| BlockPool.Release | src/light_vllm/runtime/kv_cache.py:745-757 | one reference less; an idle page goes to the LRU if indexed and to the heap if not |
| BlockPool.Publish | src/light_vllm/runtime/kv_cache.py:716-722 | a page enters the index unless its key is taken; the indexes stay mutually inverse |
| BlockPool.TakeManyOrder | src/light_vllm/runtime/kv_cache.py:561-564 | taking blocks empties the heap first and then the idle pages, oldest first |
| BlockPool.ReleaseManyOrder | src/light_vllm/runtime/kv_cache.py:607-610 | released blocks queue up behind those that were idle before |
| BlockPool.PublishCovers | src/light_vllm/runtime/kv_cache.py:711-723 | after publishing, a key of the range names the block it named before, or else this table's block, and no other key is new |
| BlockPool.TakeManyPrefix | src/light_vllm/runtime/kv_cache.py:561-564 | taking more blocks starts with the same blocks |
| PagedManager.PagedKVCacheManager.constructor | src/light_vllm/runtime/kv_cache.py:358-380 | a new manager is the empty state and keeps the invariant |
| PagedManager.PagedKVCacheManager.AllocateBlock | src/light_vllm/runtime/kv_cache.py:725-738 | heap pop or LRU eviction on the fields is the pool's Take; on an empty pool it fails and changes nothing |
| PagedManager.PagedKVCacheManager.AcquireBlock | src/light_vllm/runtime/kv_cache.py:740-743 | the field updates are the pool's Acquire |
| PagedManager.PagedKVCacheManager.ReleaseBlock | src/light_vllm/runtime/kv_cache.py:745-757 | the field updates are the pool's Release; a block without references is refused |
| PagedManager.PagedKVCacheManager.ReleaseBlocks | src/light_vllm/runtime/kv_cache.py:607-610 | releasing in reverse order is ReleaseMany |
| PagedManager.PagedKVCacheManager.TakeBlocks | src/light_vllm/runtime/kv_cache.py:561-568 | the loop takes all blocks, or gives every one back and reports failure |
| PagedManager.PagedKVCacheManager.SyncCapacity | src/light_vllm/runtime/kv_cache.py:636-646 | a changed page count is adopted only while no request is active |
| PagedManager.PagedKVCacheManager.EnsureCacheEpoch | src/light_vllm/runtime/kv_cache.py:648-659 | a changed epoch resets the pool, and is refused while a request is active |
| PagedManager.PagedKVCacheManager.PromptBlockKeys | src/light_vllm/runtime/kv_cache.py:661-695 | the identity-keyed memo returns exactly what recomputing the keys would |
| PagedManager.PagedKVCacheManager.RememberPlan | src/light_vllm/runtime/kv_cache.py:691-695 | the plan is stored as the most recent one, the least recently used one is dropped beyond the limit and nothing else, and every plan kept is right |
| PagedManager.PagedKVCacheManager.ComputeKeys | src/light_vllm/runtime/kv_cache.py:675-690 | the hashing loop computes the prompt's key chain |
| PagedManager.PagedKVCacheManager.MatchedPromptBlocks | src/light_vllm/runtime/kv_cache.py:697-709 | the longest indexed prefix of the chain, stopping at the first miss |
| PagedManager.PagedKVCacheManager.TryAddRequest | src/light_vllm/runtime/kv_cache.py:430-520 | the whole admission, every refusal included, is the state function Add |
| PagedManager.PagedKVCacheManager.Reserve | src/light_vllm/runtime/kv_cache.py:522-580 | the whole reservation, every refusal included, is the state function Reserve |
| PagedManager.PagedKVCacheManager.Commit | src/light_vllm/runtime/kv_cache.py:582-592 | commit, publication and trimming are the state function Commit |
| PagedManager.PagedKVCacheManager.PublishPromptBlocks | src/light_vllm/runtime/kv_cache.py:711-723 | the loop publishes exactly the newly completed prompt pages |
| PagedManager.PagedKVCacheManager.CommitTokens | src/light_vllm/runtime/kv_cache.py:589-625 | publication before trimming, tail blocks released in reverse, claims given back |
| PagedManager.PagedKVCacheManager.Free | src/light_vllm/runtime/kv_cache.py:594-611 | freeing returns claims and blocks, and is idempotent |
| PagedManager.PagedKVCacheManager.PreviewPrefix | src/light_vllm/runtime/kv_cache.py:414-428 | counts the cached prefix and pins nothing |
| PagedManager.PagedKVCacheManager.CapacityStats | src/light_vllm/runtime/kv_cache.py:395-407 | the statistics are those of the synchronized state, and meet the record's own check |
| PagedState.MatchedPages | src/light_vllm/runtime/kv_cache.py:467-520 | the pages of a hit are distinct and indexed under the prompt's own keys |
| PagedInvariant.AdmitKeepsInv | src/light_vllm/runtime/kv_cache.py:470-520 | admission keeps the whole-system invariant |
| PagedInvariant.AdmittedExactly | src/light_vllm/runtime/kv_cache.py:484-503 | a request is admitted exactly when, with its cached pages pinned, all claims and the larger watermark fit into the blocks left; a refused one leaves no trace |
| PagedInvariant.ReserveForKeepsInv | src/light_vllm/runtime/kv_cache.py:532-580 | reservation keeps the invariant |
| PagedInvariant.CommitKeepsInv | src/light_vllm/runtime/kv_cache.py:582-592 | commit keeps the invariant |
| PagedInvariant.FreeKeepsInv | src/light_vllm/runtime/kv_cache.py:594-611 | free keeps the invariant |
| PagedInvariant.ReserveNeverRunsOut | src/light_vllm/runtime/kv_cache.py:536-568 | once the claim or watermark test passes there are enough blocks, so the rollback loop is unreachable |
| PagedInvariant.CommitClaims | src/light_vllm/runtime/kv_cache.py:613-634 | the claims after a commit are the sums of what is outstanding and still fit; trimmed blocks were private |
| PagedInvariant.PrivateIsExclusive | src/light_vllm/runtime/kv_cache.py:613-625 | a block with one reference and no index entry is in no other table |
| PagedRuns.BlocksConserved | src/light_vllm/runtime/kv_cache.py:594-625 | over every run each block is in exactly one of free, evictable and referenced; counts are holders; the indexes are inverse; no table repeats a block |
| PagedRuns.StatsAlwaysAccepted | src/light_vllm/runtime/kv_cache.py:395-407 | over every run used plus claimed never exceeds capacity, and used is what requests hold |
| PagedRuns.CompletionGuarantee | src/light_vllm/runtime/kv_cache.py:470-503 | over every run a request admitted with the guarantee, holding no reservation, gets any reservation within its capacity; exactly when it is granted otherwise |
| PagedRuns.InitialClaimHonoured | src/light_vllm/runtime/kv_cache.py:542-559 | exactly when a reservation inside the initial claim is granted; always with watermark zero |
| PagedRuns.SpeculativeRollback | src/light_vllm/runtime/kv_cache.py:582-634 | reserve n and commit k leaves tables, claims, counts and used blocks as reserve k and commit k; commit 0 restores them |
| PagedWatermark.InitialClaimRefused | src/light_vllm/runtime/kv_cache.py:542-559 | a run after which a reservation inside the initial claim is refused by the watermark |
| PagedPromises.ReservationIsTable | src/light_vllm/runtime/kv_cache.py:560-580 | the record handed out is the table the request holds from then on, with its committed, reserved and read-only counts |
| PagedPromises.WritesAreIsolated | src/light_vllm/runtime/kv_cache.py:522-580 | from a granted reservation until its commit, over any run of other operations, every position it covers has its page in the table handed out, at or behind the read-only prefix, in a block of one reference, in no other table and not indexed |
| PagedPromises.AddErrors | src/light_vllm/runtime/kv_cache.py:430-470 | exactly which admissions are errors, and which error comes first |
| PagedPromises.ReserveErrors | src/light_vllm/runtime/kv_cache.py:522-545 | exactly which reservations are errors before capacity counts; never that no block was left |
| PagedPromises.CommitErrors | src/light_vllm/runtime/kv_cache.py:582-611 | exactly which commits are errors, that these change nothing, and what freeing reports |
| PagedPromises.BestEffortGranted | src/light_vllm/runtime/kv_cache.py:546-559 | a best-effort reservation is granted exactly when it needs no page, or all promises still open then and its watermark fit into the pages left |
| PagedPromises.AdmittedPromises | src/light_vllm/runtime/kv_cache.py:470-491 | the completion limit, the initial limit and the watermark are the fewest pages that hold what was asked for |
| PagedPromises.InitialGuarantee | src/light_vllm/runtime/kv_cache.py:473-483 | over every run a best-effort request without a watermark gets its prompt and the extra pages it was promised |
| PagedPromises.PreviewErrors | src/light_vllm/runtime/kv_cache.py:414-428 | exactly which previews are errors; an empty prompt is one, and nothing is cached for another epoch |
| PagedPromises.PreviewIsAdmission | src/light_vllm/runtime/kv_cache.py:414-428 | a preview counts what admission of the same prompt then finds cached |
| PagedPromises.CommitIndexes | src/light_vllm/runtime/kv_cache.py:711-723 | every page a commit completes is indexed afterwards, and no entry is lost |
| PagedPromises.CommitMakesHits | src/light_vllm/runtime/kv_cache.py:697-723 | once its first pages are committed, the same prompt previews to at least all of them that may be shared |
| PagedRevision.RevisionFixesPreview | src/light_vllm/runtime/scheduler/token_budget.py:465-484 | over every run that leaves the revision where it was, a prompt previews to the same cached prefix, so the remembered classification stays right |
| PagedRevision.StepFollows | src/light_vllm/runtime/kv_cache.py:711-738 | every operation that changes the index or the epoch raises the revision, and none lowers it |
| PagedRevision.RevisionCounts | src/light_vllm/runtime/kv_cache.py:711-738 | the revision moves by one for each page that enters or leaves the index, and for nothing else |
| PagedContents.PagesAlwaysAgree | src/light_vllm/runtime/kv_cache.py:648-723 | over every run with any writes to reserved slots, every indexed page holds the slots of its key's prefix in the current epoch |
| PagedContents.HitEqualsRecompute | src/light_vllm/runtime/kv_cache.py:467-520 | a request that starts from a hit finds at every cached position what recomputing its own prompt would write |
| PagedLineage.HolderHoldsParent | src/light_vllm/runtime/kv_cache.py:711-723 | whoever holds an indexed page holds the page it continues |
| PagedLineage.TakeKeepsLineage | src/light_vllm/runtime/kv_cache.py:725-738 | an eviction never takes a page that an indexed page continues |
| PagedLineage.ReleaseKeepsLineage | src/light_vllm/runtime/kv_cache.py:607-610 | releasing a table from its last block to its first leaves every idle page younger than the pages that continue it |
| PagedLineage.PublishRangeKeepsLineage | src/light_vllm/runtime/kv_cache.py:711-723 | a commit in order enters every page behind the page it continues |
| PagedClosure.OrderlyRunsStayClosed | src/light_vllm/runtime/kv_cache.py:594-738 | over every run whose commits enter their pages in order, an indexed page can be reached from the start of its prompt |
| PagedClosure.OutOfOrderOpens | src/light_vllm/runtime/kv_cache.py:711-738 | after the first commit out of order some run of frees, one admission and one reservation evicts a parent and keeps its child |
| PagedClosure.ClosedExactlyWhenInOrder | src/light_vllm/runtime/kv_cache.py:711-738 | after any orderly run, a commit leaves the index closed under parents for every orderly continuation exactly when each page it enters follows an indexed page of its own table |
| PagedRace.IndexNotParentClosed | src/light_vllm/runtime/kv_cache.py:711-738 | such a commit occurs: two requests race on one prompt, and some run leaves a page indexed without its parent |
| Layout.SemanticPositions | src/light_vllm/runtime/execution/layout.py:32-40 | the position of a query is the prefix length plus its depth below a root |
| Layout.QueryVisibility | src/light_vllm/runtime/execution/layout.py:43-55 | a query sees exactly itself and its ancestors |
| Layout.AppendDraftLayout | src/light_vllm/runtime/execution/layout.py:21-29 | the loop appends the shifted draft behind a linear input |
| Layout.AppendedDraftPath | src/light_vllm/runtime/execution/layout.py:21-29 | in the appended layout a draft node's path is all formal input and then its own draft path |
| Layout.LinearPath | src/light_vllm/runtime/execution/layout.py:13-18 | in a linear layout query i sees queries 0 to i |
| Layout.ChainIsPath | src/light_vllm/runtime/execution/layout.py:32-55 | a list that starts at a root and follows parent links is the path of its last query |
| Layout.PathIsChain | src/light_vllm/runtime/execution/layout.py:32-55 | every path is such a list |
| Transformer.ForestEqualsDecoding | src/light_vllm/runtime/execution/dense_attention.py:98-164 | for every parent-before-child layout and any number of layers, each query has the hidden state of plain decoding over prefix and root path |
| Transformer.VisibleKeys | src/light_vllm/runtime/execution/dense_attention.py:140-157 | what a query may attend to is the past and the keys of its root path, in order |
| Transformer.ChainCache | src/light_vllm/runtime/kv_cache.py:906-944 | the past and the retained keys of any parent chain are the cache of plain decoding over the accepted tokens |
| Transformer.LocalCache | src/light_vllm/runtime/execution/dense_attention.py:140-157 | a cache entry depends only on the tokens up to its own |
| Chunks.ChunkedEqualsRecompute | src/light_vllm/runtime/execution/dense_attention.py:115-164 | for every split of a sequence into steps, outputs and caches are those of one computation |
| Chunks.SplitsAgree | src/light_vllm/runtime/kv_cache.py:961-978 | two splits of one sequence cannot be told apart |
| DenseAttention.QueryStartLoc | src/light_vllm/runtime/execution/dense_attention.py:47-52 | the running sum gives where each packed request starts |
| DenseAttention.TorchDenseAttention.constructor | src/light_vllm/runtime/execution/dense_attention.py:62-79 | a context starts without updates |
| DenseAttention.TorchDenseAttention.Forward | src/light_vllm/runtime/execution/dense_attention.py:98-164 | which calls fail and that they record nothing; each request's rows are attention over its own past and root paths, whatever else is packed |
| DenseAttention.TorchDenseAttention.AttendRequest | src/light_vllm/runtime/execution/dense_attention.py:121-157 | past keys unmasked, then the mask rows, select past plus root path |
| DenseAttention.TorchDenseAttention.CacheUpdates | src/light_vllm/runtime/execution/dense_attention.py:85-96 | the new keys in layer order, or an error if a layer is missing or several requests share |
| DenseAttention.RunModel | src/light_vllm/runtime/execution/dense_attention.py:98-164 | running all layers through the context is the step function, and the updates are its keys |
| Speculative.Accept | src/light_vllm/runtime/execution/speculative.py:223-257 | the child table and the walk down compute the acceptance walk |
| Speculative.WalkIsGreedy | src/light_vllm/runtime/execution/speculative.py:220-257 | for any draft tree the output is a run of the greedy continuation and the accepted nodes are a tree path spelling all but its last token |
| Speculative.AcceptsLongestPath | src/light_vllm/runtime/execution/speculative.py:220-257 | every tree path that spells greedy tokens is a beginning of the accepted path |
| Speculative.StepTargets | src/light_vllm/runtime/execution/speculative.py:336-385 | the targets sampled from the last input row and the draft rows are what plain decoding puts after each node |
| Speculative.GreedySplit | src/light_vllm/runtime/execution/speculative.py:220-257 | greedy continuations compose |
| Decoding.SampleEffect | src/light_vllm/runtime/execution/speculative.py:385-420 | one round puts out a greedy continuation, at most one token more than the draft, and leaves the plain cache of all but the last token |
| Decoding.PlayDecodes | src/light_vllm/runtime/execution/speculative.py:312-440 | every step, chunk or draft round, keeps the session a plain greedy decoding |
| Decoding.RunDecodes | src/light_vllm/runtime/execution/speculative.py:312-440 | every run of steps with any chunks and drafts is a plain greedy decoding |
| Decoding.RunsAgree | src/light_vllm/runtime/execution/speculative.py:312-440 | two runs of one prompt agree on every token both generated and, at equal progress, on the caches |
| Decoding.RetainedIsChain | src/light_vllm/runtime/execution/speculative.py:403-405 | the retained queries, all input and the accepted nodes, follow parent links from the root |
| StepHandler.ContiguousStepHandler.constructor | src/light_vllm/runtime/execution/worker.py:91-97 | a handler over a valid cache |
| StepHandler.ContiguousStepHandler.Forward | src/light_vllm/runtime/execution/worker.py:111-172 | when a step fails, and that it then appends nothing; else hidden states and cache are those of the step function |
| StepHandler.ContiguousStepHandler.Compact | src/light_vllm/runtime/execution/worker.py:174-187 | the cache keeps exactly the retained queries of the step |
| StepHandler.ExecuteRequest | src/light_vllm/runtime/execution/speculative.py:312-440 | the whole step of a request on the real buffers gives the outputs and cache of a decoding round |
| StepHandler.AcceptDraft | src/light_vllm/runtime/execution/speculative.py:386-418 | accepts, compacts, and moves at most as many entries as draft nodes were accepted |
| Generation.StreamIsGreedy | src/light_vllm/runtime/engine/core.py:449-496 | for every run the consumer's stream is that of plain greedy decoding one token at a time |
| Generation.FinishedStreamsAgree | src/light_vllm/runtime/engine/core.py:449-496 | two runs of one prompt that both end show the same events |
| ContiguousCache.CopyInto | src/light_vllm/runtime/kv_cache.py:937-941 | a slice is overwritten and nothing else |
| ContiguousCache.CountMoved | src/light_vllm/runtime/kv_cache.py:944 | the returned count is the number of retained queries that were not in place |
| ContiguousCache.MovedCounts | src/light_vllm/runtime/kv_cache.py:944 | that number is the number of indices that differ from their place |
| ContiguousCache.NoneMoves | src/light_vllm/runtime/kv_cache.py:928-930 | nothing moves exactly when the list is 0, 1, 2, ..., so the fast path is right to return 0 |
| ContiguousCache.MovedBehind | src/light_vllm/runtime/execution/speculative.py:406-415 | behind entries that stay in place at most the others move, so the caller's check on the count never fails |
| ContiguousCache.PrefixKept | src/light_vllm/runtime/kv_cache.py:928-930 | shortening the cache is keeping its first queries |
| ContiguousCache.CacheEntry.constructor | src/light_vllm/runtime/kv_cache.py:867-883 | fresh buffers, one per layer, empty |
| ContiguousCache.CacheEntry.Keep | src/light_vllm/runtime/kv_cache.py:932-943 | gathering before overwriting keeps exactly the retained queries, although source and target overlap |
| ContiguousCache.CacheEntry.KeepFirst | src/light_vllm/runtime/kv_cache.py:928-930 | the fast path leaves what the gather path would |
| ContiguousCache.ContiguousKVCache.constructor | src/light_vllm/runtime/kv_cache.py:837-846 | an empty cache |
| ContiguousCache.ContiguousKVCache.Allocate | src/light_vllm/runtime/kv_cache.py:860-883 | which allocations are refused, ids still in use among them; else a fresh empty entry |
| ContiguousCache.ContiguousKVCache.Truncate | src/light_vllm/runtime/kv_cache.py:894-904 | a prefix of every layer remains, or an error and no change |
| ContiguousCache.ContiguousKVCache.Append | src/light_vllm/runtime/kv_cache.py:961-978 | all layers grow by the update, or none does; other entries are untouched |
| ContiguousCache.ContiguousKVCache.Compact | src/light_vllm/runtime/kv_cache.py:906-944 | both paths keep computed tokens and then the retained queries in every layer, and count the moves; errors change nothing |
| ContiguousCache.ContiguousKVCache.Read | src/light_vllm/runtime/kv_cache.py:946-959 | the valid slots of every layer |
| ContiguousCache.ContiguousKVCache.Free | src/light_vllm/runtime/kv_cache.py:980-990 | idempotent; an entry in use is only marked |
| ContiguousCache.ContiguousKVCache.AcquireLease | src/light_vllm/runtime/kv_cache.py:992-1000 | all ids active and distinct, or nothing is pinned |
| ContiguousCache.ContiguousKVCache.ReleaseLease | src/light_vllm/runtime/kv_cache.py:1002-1011 | users leave once; a freed entry without users goes away |
| Leases.LeaseLifetime | src/light_vllm/runtime/kv_cache.py:817-827 | over every run the ids of a live lease map to the very entries it was given and cannot be allocated again |
| Leases.EntryLeavesExactly | src/light_vllm/runtime/kv_cache.py:980-1011 | an entry leaves exactly when freed unused or when the last live lease of a freed entry ends |
| Leases.ReleaseTwice | src/light_vllm/runtime/kv_cache.py:824-827 | releasing a lease again changes nothing, whatever happened in between |
| Leases.RunKeepsInv | src/light_vllm/runtime/kv_cache.py:860-1011 | over every run the user counts are the live leases and a freed entry that remains has a user |
| Leases.LeaseStays | src/light_vllm/runtime/kv_cache.py:818-827 | a lease keeps its ids and entries and ends at most once |
| Leases.LeaseGranted | src/light_vllm/runtime/kv_cache.py:992-1000 | a lease is handed out exactly for distinct usable ids, holds their entries and adds one user to each |
| Leases.FreedIsInactive | src/light_vllm/runtime/kv_cache.py:980-990 | a freed id is unusable at once and nothing else changes |
| Scheduling.PlanFits | src/light_vllm/runtime/scheduler/token_budget.py:245-275 | a plan moves on, stays in the token budget, samples exactly at the last known token and reserves no slot behind the last one ever written |
| Scheduling.PlanUsesBudget | src/light_vllm/runtime/scheduler/token_budget.py:245-275 | a plan takes all pending tokens there is room for, the last one waiting only for lookahead that does not fit, and samples with all lookahead allowed or with none |
| Scheduling.CompleteAccepts | src/light_vllm/runtime/scheduler/token_budget.py:299-331 | for every validated result and cut, the commit fits the reservation, committed <= known <= capacity, and something was gained |
| Scheduling.CompleteCountsCached | src/light_vllm/runtime/engine/core.py:461-471 | what is counted as computed is what the executor cached, up to the last token shown |
| Scheduling.RunnableAgain | src/light_vllm/runtime/scheduler/token_budget.py:246-249 | exactly when the request can be scheduled again |
| Scheduling.StallsExactly | src/light_vllm/runtime/engine/core.py:97-121 | validation lets a result through that leaves nothing pending short of the limit exactly for plans with lookahead |
| Scheduling.ScheduleNeverLosesPromise | src/light_vllm/runtime/scheduler/token_budget.py:276-284 | between steps the reservation of a strict request is granted exactly when the page count was not re-planned, and the error then says so |
| Scheduling.CompleteNeverFails | src/light_vllm/runtime/scheduler/token_budget.py:299-331 | neither scheduler nor cache refuses the commit of a strict request |
| Scheduling.NextSucceedsExactly | src/light_vllm/runtime/scheduler/token_budget.py:276-331 | of all events of a strict request only scheduling on a re-planned page count is refused |
| Scheduling.GuaranteeNeverLost | src/light_vllm/runtime/scheduler/token_budget.py:278-284 | over every interleaving with other requests and changes of the page count, a strict request meets no error but a changed page count, and that only after a change |
| Scheduling.AdmissionLinks | src/light_vllm/runtime/scheduler/token_budget.py:427-455 | admission with one slot less than the capacity sets this up, and leaves a prompt token to compute |
| CacheProgress.RoundIsTracked | src/light_vllm/runtime/engine/core.py:461-471 | a step of the executor passes validation, its commit is accepted, and the scheduler then counts what the caches hold |
| CacheProgress.CutIsTracked | src/light_vllm/runtime/engine/core.py:461-471 | a stream cut inside the outputs leaves the count at the cache length or the last token shown, whichever is less |
| CacheProgress.ProgressIsCache | src/light_vllm/runtime/scheduler/token_budget.py:245-331 | over every run of planned steps and drafts the scheduler's count is the length of every layer's cache, the plain cache of that many greedy tokens |
| Stream.VisibleTokens | src/light_vllm/runtime/engine/core.py:484-496 | the loop cuts behind the first end token or at the length limit |
| Stream.StepsMerge | src/light_vllm/runtime/engine/core.py:449-496 | two steps show what one step with both their tokens shows |
| Stream.GranularityIndependent | src/light_vllm/runtime/engine/core.py:449-496 | for every split into steps the events are those of one token per step |
| Stream.StreamIsCut | src/light_vllm/runtime/engine/core.py:449-501 | the events are the tokens up to the first end token or the limit, at positions 0, 1, 2, ..., one terminal event and nothing after it |
| EngineCore.EngineCore.constructor | src/light_vllm/runtime/engine/core.py:157-179 | a new engine is empty |
| EngineCore.EngineCore.HandOver | src/light_vllm/runtime/engine/core.py:283-292 | executor and scheduler both take the request, or what the executor noted stays to be undone |
| EngineCore.EngineCore.AddRequest | src/light_vllm/runtime/engine/core.py:255-301 | the request enters the table first; if executor or scheduler raises, all of it is undone; success starts a driver if there is none |
| EngineCore.EngineCore.RemoveRequest | src/light_vllm/runtime/engine/core.py:503-513 | the request leaves at once; its scheduler removal waits for a step in flight |
| EngineCore.EngineCore.Cancel | src/light_vllm/runtime/engine/core.py:303-308 | a live request leaves without an event and its consumer counts as gone; any other is untouched |
| EngineCore.EngineCore.Shutdown | src/light_vllm/runtime/engine/core.py:232-246 | closing fails every live request once |
| EngineCore.EngineCore.FinishStep | src/light_vllm/runtime/engine/core.py:515-520 | the step's requests are idle and the waiting removals happen |
| EngineCore.EngineCore.FailRequests | src/light_vllm/runtime/engine/core.py:522-527 | each live request of the step leaves with a failure |
| EngineCore.EngineCore.FailEverything | src/light_vllm/runtime/engine/core.py:529-534 | each live request leaves with a failure |
| EngineCore.EngineCore.ApplyRequest | src/light_vllm/runtime/engine/core.py:449-482 | commit, append and send the visible tokens, and leave at the end of the stream |
| EngineCore.EngineCore.ApplyOutputs | src/light_vllm/runtime/engine/core.py:449-482 | the loop over the step is ApplyEach |
| EngineCore.EngineCore.TakeIn | src/light_vllm/runtime/engine/core.py:370-377 | a completed step is taken in, failed if its results do not validate |
| EngineCore.EngineCore.BuildInputs | src/light_vllm/runtime/engine/core.py:421-447 | the inputs are the scheduled slices of the request tokens, or an error |
| EngineCore.EngineCore.LaunchStep | src/light_vllm/runtime/engine/core.py:379-390 | schedule, build and acquire; nothing executes before all three succeed |
| EngineCore.EngineCore.Turn | src/light_vllm/runtime/engine/core.py:331-335 | one turn takes in the completed step and launches the next; an error leaves the section with nothing in flight and the live requests still there |
| EngineCore.EngineCore.AbandonStep | src/light_vllm/runtime/engine/core.py:341-356 | an escaped step ends idle, its live requests still there |
| EngineCore.EngineCore.FailLive | src/light_vllm/runtime/engine/core.py:357-359 | the handler fails every request live by then, those that came in after the error too |
| EngineCore.EngineCore.EndDriver | src/light_vllm/runtime/engine/core.py:360-365 | the driver ends, and requests that came in meanwhile get a new one |
| EngineRuns.SettleNeverRaises | src/light_vllm/runtime/engine/core.py:370-377 | taking in a step never raises: every commit is accepted |
| EngineRuns.LaunchAlwaysBuilds | src/light_vllm/runtime/engine/core.py:379-447 | a launch fails only if the scheduler raises or no lease is granted; every input is found and within its tokens |
| EngineRuns.InFlightSafety | src/light_vllm/runtime/engine/core.py:317-390 | over every interleaving of sections, registrations, cancellations and closing: scheduler = live and waiting requests, executor = live ones, waiting ones execute, executing ones are scheduled, each registered request is removed exactly once, and whatever is scheduled has a driver |
| EngineRuns.RegisterRefused | src/light_vllm/runtime/engine/core.py:293-297 | a failed registration leaves nothing but a used number |
| EngineRuns.ExecutingIsKept | src/light_vllm/runtime/engine/core.py:503-513 | registration, cancellation and closing leave the requests of a step in flight scheduled, with their progress |
| EngineRuns.ProgressWithinCapacity | src/light_vllm/runtime/engine/core.py:281-289 | over every interleaving cached <= known tokens < capacity given at registration |
| EngineRuns.StreamsAreCuts | src/light_vllm/runtime/engine/core.py:449-534 | over every interleaving each consumer sees the cut of its own tokens; a live or cancelled request has no terminal event, every other one exactly one, last |
| EngineCancellation.MarkedByCancel | src/light_vllm/runtime/engine/core.py:303-308 | over every interleaving a consumer counts as gone exactly when it cancelled while its request was live |
| EngineHistory.RegisterEnters | src/light_vllm/runtime/engine/core.py:274-292 | which registrations succeed, and that the request enters with its prompt, its capacity and nothing computed |
| EngineHistory.PromptIsKept | src/light_vllm/runtime/engine/core.py:274-292 | over every interleaving a request keeps what it asked for, and its tokens begin with the prompt it registered with |
| EngineHistory.LaunchPlans | src/light_vllm/runtime/engine/core.py:379-390 | each request picked executes the plan for the progress the scheduler found |
| EngineHistory.InputsAreHistory | src/light_vllm/runtime/engine/core.py:421-447 | over every interleaving each batch input is a slice of the registered prompt followed by the tokens shown to the consumer |
| EngineHistory.StepsAreResults | src/light_vllm/runtime/engine/core.py:449-482 | over every interleaving what is recorded for a request are the outputs of exactly its own steps, in order |
| EngineHistory.SettleProgress | src/light_vllm/runtime/engine/core.py:461-471 | each request of a step that stays has moved by its input and by what was cached of its outputs as far as shown, and no other has |
| EngineHistory.UnleasedLaunch | src/light_vllm/runtime/engine/core.py:379-390 | without a lease what the scheduler has found stays and nothing executes |
| EngineHistory.ClosingIsFinal | src/light_vllm/runtime/engine/core.py:232-246 | after closing no request is ever live again, every registration is refused, and a driver that ends has no successor |
| EngineHistory.OutputOkExactly | src/light_vllm/runtime/engine/core.py:97-121 | exactly which results are let through |
| EngineHistory.RejectedFails | src/light_vllm/runtime/engine/core.py:370-377 | a failed or rejected step fails exactly its live requests, once each, and touches no other |
| EngineHistory.ErrorFailsAll | src/light_vllm/runtime/engine/core.py:357-359 | after an error of the driver nothing runs until every live request has failed |
| TensorParallel.PartitionIsCut | src/light_vllm/modeling/tensor_parallel.py:62-83 | which partition is refused and why, where each rank starts and ends, and that the first ranks hold one element more |
| TensorParallel.LinearIsMatrix | src/light_vllm/modeling/tensor_parallel.py:159-206 | a layer is the linear map of its matrix with the bias on top: it respects sums and multiples and sends unit vectors to columns |
| TensorParallel.GatherRestores | src/light_vllm/modeling/tensor_parallel.py:195-202 | gathering all slices gives the dimension back |
| TensorParallel.ReduceRestores | src/light_vllm/modeling/tensor_parallel.py:236-241 | adding up the slices' sums gives the full sum |
| TensorParallel.ColumnParallelIsLinear | src/light_vllm/modeling/tensor_parallel.py:159-206 | gathered output columns are the whole layer |
| TensorParallel.RowParallelIsLinear | src/light_vllm/modeling/tensor_parallel.py:209-245 | summed input pieces plus the bias, once, are the whole layer |
| TensorParallel.VocabParallelIsEmbedding | src/light_vllm/modeling/tensor_parallel.py:281-306 | the reduced lookup is the full lookup, for every known token and no other |
| Awq.UnpackPack | src/light_vllm/modeling/quantization/awq.py:318-341 | packing accepts exactly tables of nibbles of aligned width, and unpacking undoes it |
| Awq.PackUnpack | src/light_vllm/modeling/quantization/awq.py:318-341 | packing undoes unpacking for all words, negative ones included |
| Awq.DenseIsDequantized | src/light_vllm/modeling/quantization/awq.py:433-450 | a dense weight is the packed value less the packed zero point of its group, times the group's scale; size -1 is one group |
| Awq.UnpackOrder | src/light_vllm/modeling/quantization/awq.py:31-32 | the inverse order computed from the pack order |
| Awq.ShiftKeepsSign | src/light_vllm/modeling/quantization/awq.py:323-325 | the right shift is the one of signed words: it keeps the sign |
| Awq.SignDoesNotShow | src/light_vllm/modeling/quantization/awq.py:323-325 | the copied sign bits of the arithmetic shift never reach the kept nibble |
| Awq.UnpackSlice | src/light_vllm/modeling/quantization/awq.py:165-187 | cutting packed columns cuts the values eight times as far out |
| Awq.UnpackConcat | src/light_vllm/modeling/quantization/awq.py:511-513 | unpacking commutes with concatenation |
| Awq.ColumnShardIsSlice | src/light_vllm/modeling/quantization/awq.py:165-198 | a rank's dequantized weights are the rows of its outputs |
| Awq.ColumnShardingPreserves | src/light_vllm/modeling/quantization/awq.py:114-218 | for every world size that passes the alignment checks, gathered column shards are the unsharded layer |
| Awq.RowShardEntry | src/light_vllm/modeling/quantization/awq.py:272-297 | a rank's weights are those of its inputs, group parameters included, with one shared group when the group size is -1 |
| Awq.RowShardingPreserves | src/light_vllm/modeling/quantization/awq.py:221-315 | for every world size that passes the alignment checks, summed row shards plus one bias are the unsharded layer |
| AwqStorage.MergedComputesAll | src/light_vllm/modeling/quantization/awq.py:506-535 | the merged operation computes every layer's outputs one after another |
| AwqStorage.PartFound | src/light_vllm/modeling/quantization/awq.py:523-534 | each layer's buffers are the columns at its running offset |
| AwqStorage.AwqLayer.constructor | src/light_vllm/modeling/quantization/awq.py:114-163 | a layer begins with buffers of its own |
| AwqStorage.RebindAll | src/light_vllm/modeling/quantization/awq.py:523-534 | the running offsets point every layer at its own columns of the merged buffers |
| AwqStorage.ShareMergedStorage | src/light_vllm/modeling/quantization/awq.py:506-535 | all layers end up as views of one new set of merged buffers, one behind the other, and hold what they held; mixed biases are refused |
| Gqa.HeadMappingSurvives | src/light_vllm/modeling/models/qwen2.py:290-317 | for all accepted head counts and world sizes, in both branches, a local query head finds the key/value head it has unsharded |
| Gqa.PlanAccepts | src/light_vllm/modeling/models/qwen2.py:290-307 | a split is accepted exactly when query heads divide evenly and key/value heads divide over the ranks or the ranks over them |
| Gqa.BlockSharesHead | src/light_vllm/runtime/execution/dense_attention.py:136-138 | key/value head k serves the k-th block of query heads |
| Gqa.ProjectionsAreWholeHeads | src/light_vllm/modeling/models/qwen2.py:311-345 | the rank's query and key/value projections are the rows of whole heads, its own |
| Gqa.ShardedAttention | src/light_vllm/modeling/models/qwen2.py:290-317 | the ranks together compute the unsharded attention head by head |
| ShardedLayer.LayerHead | src/light_vllm/modeling/models/qwen2.py:373-431 | on one rank, head by head, the output projection reads the attention of the query's slice over the slices of all keys and values of its key/value head |
| ShardedLayer.HistoriesAreLocal | src/light_vllm/modeling/models/qwen2.py:290-360 | a rank's keys and values, of every position, are those of its key/value heads, split or replicated |
| ShardedLayer.HeadsAreSlice | src/light_vllm/modeling/models/qwen2.py:373-431 | a rank's attended heads, joined, are its slice of all heads joined |
| ShardedLayer.ShardedLayerIsAttentionLayer | src/light_vllm/modeling/models/qwen2.py:290-436 | for all accepted head counts and world sizes the ranks together compute the whole attention layer, projections, replicated heads and output reduction included |
| StopBuffer.Find | src/light_vllm/serving/openai.py:198 | the first occurrence, or none |
| StopBuffer.StopBuffer.constructor | src/light_vllm/serving/openai.py:191-194 | nothing pending; all but one character of the longest stop string is held back |
| StopBuffer.StopBuffer.Push | src/light_vllm/serving/openai.py:196-210 | one push on the fields is the buffer function |
| StopBuffer.StreamIsSearch | src/light_vllm/serving/openai.py:190-210 | for every chunking the text let out is a prefix of the consumed text with no stop string starting in it, ends at the earliest occurrence on a stop, and is everything without one |
| StopBuffer.HoldbackExactly | src/light_vllm/serving/openai.py:191-194 | what is held is all text, or one character fewer than the longest stop string has |
| StopBuffer.PushHoldsBack | src/light_vllm/serving/openai.py:196-210 | a push that does not end lets out everything but what is held |
| StopBuffer.EndReleases | src/light_vllm/serving/openai.py:200-206 | after a stop string or the end of the text nothing is held |
| StopBuffer.TextComesOutEarly | src/light_vllm/serving/openai.py:196-210 | after each piece of every chunking all text but that end is out; without stop strings nothing is held |
| StopBuffer.ChunkingInvisibleExactly | src/light_vllm/serving/openai.py:190-210 | the chunks never show exactly when no stop string hides inside another behind its own beginnings |
| StopBuffer.EqualLengthsAreExposed | src/light_vllm/serving/openai.py:179-194 | stop strings of one length never hide, so also a single one |
| StopBuffer.ChunkingCanShow | src/light_vllm/serving/openai.py:190-210 | two stop strings for which the chunks do show |
| StopBuffer.ConsumeText | src/light_vllm/serving/openai.py:213-243 | one delta for each push that lets text out; the end reason; the tokens counted are those up to the first whose text completes a stop string, or all |

## Left out

- Allocation objects: block tables are values in a map of the manager, so two names for one
  allocation object are not modelled; the manager hands out none.
- Mutable request records of the engine are values in its table, for the same reason.
- The page size is fixed per manager; the source reads it from the capacity object, which only
  changes its page count when a model is reloaded.
- Type checks of arguments (booleans, non-integers) have no counterpart in typed parameters.
- The paged executor's slot mapping and page copies are not modelled; `PagedContents` states what
  may be written to a slot and proves what the index then guarantees.
- K and V of one slot are one value; tensor shapes, dtypes, devices, softmax numerics and kernels
  are foreign computation.
- The position limit of the model, random sampling, metrics, TTFT admission and tracing are not
  part of this model.
- Which requests the scheduler picks, its short-request lanes, aging, resubmission and the choice
  between strict and optimistic admission: the engine model takes any choice that picks runnable
  requests, and `Scheduling` covers the plan of one request and strict requests.
- Draft proposers: any tree with distinct siblings is accepted as a draft.
- The thread lane, asyncio mechanics, IPC and HTTP/SSE encoding. Each section of the driver is one
  step because the source runs it under one lock; cancelling the driver task from outside, which
  the engine never does, is not a step.
- `UnboundedKVCacheManager`, the registries, AWQ calibration and quantization search, and the
  loading of safetensors files are not part of this model.
- Reading token text out of token ids is a parameter of `StopBuffer.ConsumeText`.
