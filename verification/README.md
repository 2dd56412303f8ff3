# Mosaic: a model of its memory planning, in-place execution and serving state

Mosaic runs diffusion language models inside a fixed memory budget. This project models the
parts of it whose correctness is not visible from one function, and proves what they promise:

- **GatherGemm**: the fused gather-GEMM kernel as a grid of tile programs over one shared output.
- **ReusePlan, BlockGraphs, BlockPlans**: the first-fit planner that places all activations of a
  decoder block in one buffer, and the block graphs of LLaDA, Dream and LLaDA-MoE with their plans.
- **FlatBuffer, FeedForward, DecoderLayer, LogitsTiles, ModelForward**: in-place, chunked execution
  over views of that buffer, from one tile up to a whole forward pass.
- **ChunkSearch, SearchOnGraphs, SearchResults**: the online search for chunk counts, for any
  analyser and, exactly, on the real graphs.
- **TextStream, SequenceData, RequestOutput, RequestStream, SharedLogprobs, SharedLists, ParallelSample,
  StreamedGroup, BadWords**: the serving state machines.
- **VmmAllocator, ScalarType, FloatMax, ExpertWeights, NinjaSweep**: allocator, encodings, weight
  names and sweep-line accounting.
- **Arith, Wrappers**: division and rounding facts, options and occurrences that several modules share.

`dafny verify dfyconfig.toml` checks everything.

## How the sources are read

- Tensor operations (norms, projections, attention, sampling) are arbitrary functions of rows or
  of whole tensors; arithmetic in the kernel is exact. What is proved is that the buffer
  discipline, the tiling and the aliasing compute the composition of those functions.
- A buffer cell is one byte. Elements have two bytes, as in the graph builders.
- Times, log probabilities and logits are `real`; a logit is finite or minus infinity.
- The graph analyser, the plan and the activation pool are modelled from
  `vllm/v1/worker/graph_builder.py` and `vllm/v1/worker/activation_memory_pool.py`. The search is
  also stated for an arbitrary analyser.
- `gather_gemm` documents its weight as [Vocab, Hidden], but takes the transposed view
  [Hidden, Vocab]; the model follows the code.

## Results that say where the code falls short

- `ReusePlan.AliasCanClobber`: the planner does not look at what an alias lands on. A guard on the
  graph alone makes every plan safe (`GuardedPlanIsSafe`); the exact condition needs the offsets
  (`PlanIsSafe`). The block graphs do not meet the guard (`FinalIsNotGuarded`), but their plans are
  safe (`ModelPlanSafe`), although `final_output` may lie exactly over `mlp_output`.
- `DecoderLayer.RunShared`: LLaDA and Dream never rebind `x`; if no tensor shared the memory of `x`,
  a run of any number of layers would leave `x` unchanged.
- `SearchResults.SearchIsExact`, `SmallRequestStopsIff`: the search follows a path of cuts that does
  not depend on the pool and returns its first configuration that fits. For at least 9 tokens
  (LLaDA), 111 (Dream) or 20 (LLaDA-MoE) it always stops, after at most max(m, 1) + n - 1 turns for n
  tokens and m masked ones; for fewer it never raises, and goes on for ever unless one of the
  finitely many configurations with no more chunks than rows is reached and fits.
- `SearchResults.MoeNeverStops`: it can go on for ever although a configuration fits.
- `SearchResults.DreamResultNotLeast`: what it returns need not be the least configuration;
  `FindsLeastConfigIff` says exactly when it is.
- `SearchResults.DreamRaisesTooEarly`: for Dream it can raise although a configuration fits, exactly in
  the range of `RaisesThoughFitsIff`; for LLaDA and LLaDA-MoE never (`RaisesOnlyIfNothingFits`).
- `SearchResults.BufferIsNotPeak`: a real plan is larger than the largest peak, so the analyser for
  which the search would be optimal (`ChunkSearch.SearchIsOptimal`) is not the repository's.
- `SearchOnGraphs.TwoChunksCostMore`: the MLP peak of a LLaDA or LLaDA-MoE block is larger with two
  chunks than with one.
- `TextStream.CleanIff`: the text after a stop-string cut can still contain a stop string, because
  the first-listed match wins and not the leftmost. It cannot exactly if the first-listed stop
  string is part of every other one.
- `LogitsTiles.OutputPlace`: Dream reads the hidden state one position earlier only with a prompt of
  at least one token.
- `SequenceData.ResetAloneIff`: a recompute reset without a fresh full copy loses the pending tokens.
- `RequestOutput.FoldOkIff`, `RequestStream.LateStartFails`: merging fails where log probabilities would
  extend an output that has none. Folding a run from its start never does (`FoldSucceeds`), but
  a fold that starts later can, and so can merging deltas among themselves first (`RightSucceedsIff`).
- `SharedLogprobs.EarlyReportDoubles`, `StreamedLogprobsIff`: the completion of a sequence without tokens
  refers to the sequence's own list of log probabilities. If a report precedes the first token, a
  client in the same process ends up with every log probability at least twice, and so does the
  sequence; exactly then. Text and tokens are not affected (`RequestStream.FoldIsCumulative`), nor is
  a client that gets copies of the outputs (`RequestStream.FoldOfCopies`), such as the pickled ones of
  `vllm/engine/multiprocessing/engine.py`.
- `ModelForward.Forward`: a pass without tokens or without masked positions raises, tiled or not,
  because the plan has no entry for tensors without bytes.
- `VmmAllocator.MapAfterUnmapIsLost`, `MapBacksAfterRunIff`: after an unmap, mapping the same bytes
  returns without mapping, until everything is freed.
- `FloatMax.MaxIsLargestIff`: the largest value of an IEEE type with a single exponent bit is wrong.

## Model

| member | source | states |
|---|---|---|
| GatherGemm.GroupWindow | gather_gemm/gather_gemm_kernel.py:44-47 | the group of a program id starts inside the grid and the id lies in the group's window, ragged last group included |
| GatherGemm.SwizzleInGroup | gather_gemm/gather_gemm_kernel.py:41-49 | the ids of a group stay in its tile rows, and neighbouring ids go down a column |
| GatherGemm.SwizzleOnto | gather_gemm/gather_gemm_kernel.py:41-49 | every tile has a program id that the swizzle sends to it |
| GatherGemm.SwizzleOneToOne | gather_gemm/gather_gemm_kernel.py:41-49 | the swizzle is inverted by that id, so it is a bijection between program ids and tiles |
| GatherGemm.ExactlyOneWriter | gather_gemm/gather_gemm_kernel.py:41-58 | every output cell lies in the tile of exactly one program instance |
| GatherGemm.InnerOfUnit | gather_gemm/gather_gemm_kernel.py:73 | the inner product is a[k] * b[k] where only a[k] is not zero |
| GatherGemm.InnerAdds | gather_gemm/gather_gemm_kernel.py:73 | it is additive |
| GatherGemm.InnerIsSymmetric | gather_gemm/gather_gemm_kernel.py:73 | it is symmetric |
| GatherGemm.InnerIsOnly | gather_gemm/gather_gemm_kernel.py:73 | and it is the only function on vectors that is additive and right on vectors with one entry |
| GatherGemm.InnerOfStretch | gather_gemm/gather_gemm_kernel.py:69-73 | zero-padded stretches of two vectors contribute exactly the terms of the stretch |
| GatherGemm.AdvanceX | gather_gemm/gather_gemm_kernel.py:75 | adding a block of stride moves the x pointer block to the next K block |
| GatherGemm.AdvanceW | gather_gemm/gather_gemm_kernel.py:76 | the same for the weight pointers |
| GatherGemm.LoadX | gather_gemm/gather_gemm_kernel.py:70 | the masked load gives in-range lanes the zero-padded stretch of their gathered row |
| GatherGemm.LoadW | gather_gemm/gather_gemm_kernel.py:71 | the masked load gives in-range lanes the zero-padded stretch of their column |
| GatherGemm.PartialStep | gather_gemm/gather_gemm_kernel.py:69-73 | one turn of the K loop takes every lane from the first k terms of its cell to the next block's end |
| GatherGemm.KStep | gather_gemm/gather_gemm_kernel.py:69-76 | one turn of the K loop advances pointers and accumulator together |
| GatherGemm.Accumulate | gather_gemm/gather_gemm_kernel.py:62-76 | after the K loop every in-range lane holds the full inner product |
| GatherGemm.Store | gather_gemm/gather_gemm_kernel.py:80-82 | the masked store writes every cell of the tile and no other address |
| GatherGemm.Instance | gather_gemm/gather_gemm_kernel.py:41-82 | one program instance stores the right value in each cell of its tile and touches nothing else |
| GatherGemm.RunGrid | gather_gemm/gather_gemm_kernel.py:41-82 | in whatever order the instances go, out is x[indices] @ w, and addresses outside the output keep their value |
| GatherGemm.LaunchIsValid | gather_gemm/gather_gemm_kernel.py:131-138 | matching strided tensors make a launch with in-range, collision-free addresses |
| GatherGemm.ContiguousIsValid | gather_gemm/gather_gemm_kernel.py:114-138 | row-major tensors and the transposed weight are legal, and columns of the latter are rows of the weight |
| GatherGemm.RowIsSlice | gather_gemm/gather_gemm_kernel.py:114-138 | the rows of a row-major tensor are consecutive stretches of its memory |
| GatherGemm.GatherMatmul | gather_gemm/gather_gemm_kernel.py:114-138 | for any strides, mismatched shapes are refused and change nothing; otherwise every element is the inner product of a gathered row and a weight column, and nothing else changes |
| ReusePlan.LastUses | vllm/v1/worker/graph_builder.py:190-193 | the recorded death of a tensor is at or after k exactly if some node at or after k reads it |
| ReusePlan.GenerateReusePlan | vllm/v1/worker/graph_builder.py:188-250 | planning fails exactly when an alias target is not placed in time, and otherwise gives the plan and the size of its buffer |
| ReusePlan.PlanIsUnique | vllm/v1/worker/graph_builder.py:188-250 | a graph has one plan |
| ReusePlan.FirstGap | vllm/v1/worker/graph_builder.py:230-240 | the scan over the sorted live blocks returns the first gap |
| ReusePlan.ScanIsLeast | vllm/v1/worker/graph_builder.py:230-240 | over sorted disjoint blocks the scan returns an offset that meets no block, and every smaller one meets some block |
| ReusePlan.ScanFits | vllm/v1/worker/graph_builder.py:208-240 | in a plan that is safe so far, the next tensor gets the least offset at which it meets no needed tensor |
| ReusePlan.PlanIsSafe | vllm/v1/worker/graph_builder.py:188-250 | for every graph the plan destroys no needed tensor if and only if every aliased tensor lands on free memory or in place on an input; scanned tensors sit at their least offset |
| ReusePlan.LeastFitTouches | vllm/v1/worker/graph_builder.py:230-240 | a planned offset is 0 or the end of a tensor that is still needed |
| ReusePlan.LeastFitUnique | vllm/v1/worker/graph_builder.py:230-240 | there is one least offset |
| ReusePlan.PlanIsAligned | vllm/v1/worker/graph_builder.py:188-250 | all offsets are multiples of the element size if the sizes of all tensors that are read are |
| ReusePlan.WithinTotal | vllm/v1/worker/graph_builder.py:246-249 | every placed tensor lies inside the reported buffer |
| ReusePlan.TotalIsTight | vllm/v1/worker/graph_builder.py:246-249 | the reported buffer is no larger than needed: some tensor ends at its end |
| ReusePlan.InPlaceAliasIsSafe | vllm/v1/worker/graph_builder.py:222-228 | an element-wise node that takes over an input at its last use is always placed safely |
| ReusePlan.GuardedPlanIsSafe | vllm/v1/worker/graph_builder.py:222-228 | if every aliased node meets a guard on the graph alone, the whole plan is safe |
| ReusePlan.AliasCanClobber | vllm/v1/worker/graph_builder.py:222-228 | a concrete graph whose plan puts an alias over a tensor that is still read |
| ReusePlan.AnalyzeLiveness | vllm/v1/worker/graph_builder.py:117-127 | the set kept for a node is exactly the tensors written so far that a later node reads |
| ReusePlan.MemoryTimeline | vllm/v1/worker/graph_builder.py:146-186 | the timeline holds the bytes of the live tensors and the output of every node |
| ReusePlan.PeakWithinPlan | vllm/v1/worker/graph_builder.py:129-144 | in a safe plan the memory reported for any node never exceeds the planned buffer |
| BlockGraphs.WellBuilt | vllm/v1/worker/graph_builder.py:708-797 | the block graphs read only earlier tensors and their alias is resolved |
| BlockGraphs.NormSlot | vllm/v1/worker/graph_builder.py:751-770 | in every plan x lies at 0, x_normed_2 right behind it and the residual behind both |
| BlockGraphs.OutputSlot | vllm/v1/worker/graph_builder.py:773-791 | the output of the feed-forward stage lies exactly over x or behind it |
| BlockGraphs.FinalIsSafe | vllm/v1/worker/graph_builder.py:791-792 | forcing final_output onto x destroys nothing |
| BlockGraphs.BlockPlanSafe | vllm/v1/worker/graph_builder.py:708-797 | the plan of a block of any sizes, chunked or not, is safe and puts final_output on x |
| BlockGraphs.ModelPlanSafe | vllm/v1/worker/graph_builder.py:256-797 | for LLaDA, Dream and LLaDA-MoE, every number of tokens and every chunking, the plan is safe, final_output is x, and all offsets are even |
| BlockGraphs.FinalIsNotGuarded | vllm/v1/worker/graph_builder.py:791-792 | that final_output may take the place of x cannot be seen from the graph alone |
| BlockPlans.FirstHalfSlots | vllm/v1/worker/graph_builder.py:751-770 | the exact offsets of every tensor before the feed-forward stage |
| BlockPlans.TotalIsTwoParts | vllm/v1/worker/graph_builder.py:246-249 | the planned buffer is the larger of the block without logits and the hidden states with the logits behind them |
| BlockPlans.BodyWithoutLogits | vllm/v1/worker/graph_builder.py:188-250 | the first of these does not depend on the logits |
| BlockPlans.BodyAtLeast | vllm/v1/worker/graph_builder.py:751-770 | no plan is smaller than four model tensors, nor than three and two k tensors |
| BlockPlans.UncutBody | vllm/v1/worker/graph_builder.py:784-789 | an uncut stage stacks two scratch tensors behind the residual |
| BlockPlans.LargeChunksBody | vllm/v1/worker/graph_builder.py:774-783 | large chunks stack all three behind it: the exact size |
| BlockPlans.SmallChunksBody | vllm/v1/worker/graph_builder.py:774-783 | small chunks fit between the other tensors: the least size of all |
| FeedForward.MlpTile | vllm_add_llada/llada_blocks.py:1027-1043 | a tile gives each of its tokens the MLP of its row and leaves other memory alone |
| FeedForward.MoeTile | vllm_add_llada_moe/fused_moe_minimal.py:85-218 | the same for the experts, even when cache 3 shares memory with cache 1 |
| FeedForward.ProgressStep | vllm_add_llada/llada_blocks.py:1026-1043 | a tile extends the finished tokens without destroying earlier output rows or later input rows |
| FeedForward.TileCount | vllm_add_llada/llada_blocks.py:1024-1027 | at most `chunks` tiles of ceil(N / chunks) tokens cover N tokens |
| FeedForward.MlpPaths | vllm_add_llada/llada_blocks.py:1027-1043 | the product of the gated MLP takes the activated gate projection on one side and the up projection on the other |
| FeedForward.MoePaths | vllm_add_llada_moe/fused_moe_minimal.py:85-218 | both expert products see the routing of the row; the first sees the row, the second the activated first product |
| FeedForward.TiledMlp | vllm_add_dream/dream_blocks.py:48-83 | for N >= 1 the tiled MLP with scratch for ceil(N / chunks) tokens equals the one-shot MLP in at most `chunks` tiles; for N = 0 it raises |
| FeedForward.Route | vllm_add_llada_moe/llada_moe_mlp.py:110-113 | the routing of all tokens is computed once, from their own rows |
| FeedForward.TiledMoe | vllm_add_llada_moe/llada_moe_mlp.py:104-132 | for N >= 1 the tiled experts equal the one-shot experts, with the caches aliased or not; for N = 0 it raises |
| DecoderLayer.Project | vllm_add_llada/llada_blocks.py:970-988 | norm and projections into the views, x kept |
| DecoderLayer.Adjust | vllm_add_dream/dream_blocks.py:168-209 | in-place updates of q, k and v do not disturb each other or x |
| DecoderLayer.Attend | vllm_add_dream/dream_blocks.py:211-241 | attention and output projection, x kept |
| DecoderLayer.AddAndNorm | vllm_add_llada/llada_blocks.py:998-1000 | both outputs of the fused addition and norm come from the original x and attention output |
| DecoderLayer.RunStage | vllm_add_llada_moe/llada_moe_mlp.py:104-145 | tiled and one-shot stages, dense and with experts, compute the same |
| DecoderLayer.FeedForwardHalf | vllm_add_llada/llada_blocks.py:1021-1114 | the final addition gets the residual and the stage of the normed input, also when it writes over the stage's output |
| DecoderLayer.AddResidual | vllm_add_llada/llada_blocks.py:1113-1114 | the final addition, also over the output of the stage |
| DecoderLayer.RunLayer | vllm_add_llada/llada_blocks.py:970-1114 | one in-place layer leaves the pure layer of x in final_output |
| DecoderLayer.AttentionPaths | vllm_add_dream/dream_blocks.py:168-241 | attention sees the adjusted projections of the normed input, queries, keys and values each their own |
| DecoderLayer.ApplyIs | vllm_add_llada/llada_blocks.py:998-1114 | the layer is, element by element, the sum of the residual and the feed-forward stage of every normed token |
| DecoderLayer.ComposeInSteps | vllm_add_llada/llada_model.py:480-489 | one layer is itself, and more layers go on from where fewer ended |
| DecoderLayer.RunShared | vllm_add_llada/llada_model.py:480-489 | with final_output on x, n layers leave the n-fold composition in x; with x alone in its memory, they leave x unchanged |
| DecoderLayer.RunRebound | vllm_add_llada_moe/llada_moe_blocks.py:342-382 | with x rebound to final_output, n layers give the composition wherever final_output may serve as x |
| LogitsTiles.OutputPlace | vllm_add_dream/dream_model.py:246-246 | which row each model reads for an output position; Dream's is one earlier if and only if there is a prompt |
| LogitsTiles.GatherTile | vllm_add_llada/llada_model.py:577-580 | logits row k of a tile is the projection of the k-th gathered hidden row |
| LogitsTiles.SampleLogits | vllm_add_llada/llada_model.py:568-594 | the concatenated samples of the tiles are those of every row on its own, in order; with no masked row a tiled stage raises |
| ModelForward.PlanPlaces | vllm_add_llada/llada_model.py:258-275 | the views named by the plan keep apart all tensors that live at the same time, for every model, size and chunking, and final_output is x |
| ModelForward.LogitsApart | vllm/v1/worker/graph_builder.py:794-794 | the logits tensor does not overlap the final hidden states |
| ModelForward.EntriesExist | vllm/v1/worker/graph_builder.py:202-203 | which tensors have an entry in the plan |
| ModelForward.RunLayers | vllm_add_llada_moe/llada_moe_model.py:247-248 | all layers of any model over the planned views give the composition of the pure layers |
| ModelForward.PlacesAre | vllm_add_dream/dream_model.py:246 | the rows that are sampled: the masked positions, one earlier for Dream with a prompt, and those of the whole input if there are no output tokens |
| ModelForward.Forward | vllm_add_llada/llada_model.py:435-594 | plan, layers, final norm and sampling give, for every masked position, the sample of the pure network at row p + mask[i], for Dream with a prompt at p + mask[i] - 1, and without output tokens at mask[i]; the pass raises exactly if there are no tokens or no masked positions |
| ChunkSearch.AnalyzeComponents | diffusion_tools/online_searcher.py:14-54 | each reported peak is the largest step of its kind, and the total is the largest of the three |
| ChunkSearch.SearchIsSound | diffusion_tools/online_searcher.py:140-269 | for every analyser, a returned configuration fits the reduced pool with the required slack, and raising means the fixed part is the bottleneck |
| ChunkSearch.WhereFound | diffusion_tools/online_searcher.py:140-229 | for every analyser, what the search returns is the first configuration of the cut path that fits |
| ChunkSearch.WhereRaised | diffusion_tools/online_searcher.py:231-269 | for every analyser, it raises where the path ends and nothing on it fits |
| ChunkSearch.SearchOutcome | diffusion_tools/online_searcher.py:140-269 | for every analyser, when it returns, raises or stops at all, in terms of the path |
| ChunkSearch.PathEndsIff | diffusion_tools/online_searcher.py:231-255 | if peaks depend on their own chunks, the path ends if and only if both stages can be cut down to the fixed part |
| ChunkSearch.OnPathIff | diffusion_tools/online_searcher.py:231-253 | the path in closed form |
| ChunkSearch.FindsLeastIff | diffusion_tools/online_searcher.py:140-269 | the least feasible configuration is found if and only if it lies on the path |
| ChunkSearch.SomeFitIff | diffusion_tools/online_searcher.py:188-253 | if more chunks than those of a top configuration change nothing, then whether the search meets one that fits is decided by those within it |
| ChunkSearch.LeastExists | diffusion_tools/online_searcher.py:188-188 | if the buffer is the larger of two separate parts and anything fits, there is a least feasible configuration |
| ChunkSearch.StopsIff | diffusion_tools/online_searcher.py:140-269 | for an analyser whose buffer is the largest peak, which the repository's is not: the search stops if and only if some chunk counts bring both stages to the fixed part or the budget |
| ChunkSearch.SearchIsOptimal | diffusion_tools/online_searcher.py:140-269 | for such an analyser, a returned configuration has the least feasible count in each component, and it raises only if nothing is feasible |
| ChunkSearch.Search | diffusion_tools/online_searcher.py:129-269 | for every analyser and pool under which it stops, the loop ends in the state that its turns lead to |
| SearchOnGraphs.StepBytesAre | vllm/v1/worker/graph_builder.py:146-186 | the exact memory timeline of every block |
| SearchOnGraphs.FixedPeak | diffusion_tools/online_searcher.py:45-47 | the fixed peak of a block is three model tensors and one k tensor |
| SearchOnGraphs.MlpPeak | diffusion_tools/online_searcher.py:42-44 | the MLP peak of a block, chunked and not |
| SearchOnGraphs.PeaksInBytes | vllm/v1/worker/graph_builder.py:256-797 | the peaks of the three models in bytes per token and per logits row |
| SearchOnGraphs.TwoChunksCostMore | vllm/v1/worker/graph_builder.py:773-789 | cutting the MLP of LLaDA or LLaDA-MoE into two raises its peak |
| SearchOnGraphs.LogitsPeak | diffusion_tools/online_searcher.py:40-41 | the logits peak is the logits tensor |
| SearchOnGraphs.BufferCovers | diffusion_tools/online_searcher.py:169-177 | the planned size is never below any step of the timeline |
| SearchOnGraphs.ReturnedConfigFits | diffusion_tools/online_searcher.py:188-229 | a returned configuration leaves 900 MiB of the pool (1600 MiB for LLaDA-MoE) free at every node of the block |
| SearchResults.RealBuffer | diffusion_tools/online_searcher.py:169-171 | the planned size of a configuration is the larger of a part set by the MLP chunks and a part set by the logits chunks |
| SearchResults.BodyIsAtLeast | diffusion_tools/online_searcher.py:171-171 | no cutting brings the plan below its least size |
| SearchResults.BodyWhenCut | diffusion_tools/online_searcher.py:171-171 | cutting the MLP peak down to the fixed part reaches that size |
| SearchResults.SearchIsExact | diffusion_tools/online_searcher.py:140-269 | with enough tokens the search stops for every pool within max(m, 1) + n - 1 turns, and raises if and only if the budget is below an explicit bound |
| SearchResults.PoolNeeded | diffusion_tools/online_searcher.py:99-229 | the search returns something exactly if the pool holds that bound and 900 MiB more (1600 MiB for LLaDA-MoE) |
| SearchResults.SomethingFitsIff | diffusion_tools/online_searcher.py:188-188 | with enough tokens, some configuration fits if and only if the least plan and one row of logits do |
| SearchResults.RaisesThoughFitsIff | diffusion_tools/online_searcher.py:255-269 | for exactly which budgets the search raises although something fits |
| SearchResults.RaisesOnlyIfNothingFits | diffusion_tools/online_searcher.py:255-269 | for LLaDA and LLaDA-MoE there are none |
| SearchResults.DreamRaisesTooEarly | diffusion_tools/online_searcher.py:235-269 | for Dream there are: 111 tokens, 8 masked |
| SearchResults.SmallRequestStopsIff | diffusion_tools/online_searcher.py:140-269 | with fewer tokens the search never raises, and stops if and only if some configuration with at most max(m, 1) logits and max(n, 2) MLP chunks has peaks that lead to it and a plan that fits |
| SearchResults.SearchReportsIff | diffusion_tools/online_searcher.py:231-269 | if the fixed part exceeds the budget, the search raises if and only if the request has at least 9, 111 or 20 tokens, and otherwise never stops |
| SearchResults.LeastConfig | diffusion_tools/online_searcher.py:188-188 | if anything fits, there is a least configuration |
| SearchResults.FindsLeastConfigIff | diffusion_tools/online_searcher.py:140-269 | the search returns it if and only if the peaks lead there, a condition in closed form |
| SearchResults.DreamResultNotLeast | diffusion_tools/online_searcher.py:231-253 | a Dream request for which the search cuts both stages where cutting one would do |
| SearchResults.MoeNeverStops | diffusion_tools/online_searcher.py:231-243 | a LLaDA-MoE request for which it goes on for ever although a configuration fits |
| SearchResults.AnalyserAnalyses | diffusion_tools/online_searcher.py:169-174 | an analyser of the real graphs exists |
| SearchResults.BufferIsNotPeak | diffusion_tools/online_searcher.py:171-177 | its buffer is not the largest peak |
| SequenceData.RunIsCoherent | vllm/sequence.py:322-432 | over every run, replica output plus pending tokens is the primary output, the cached list is prompt plus output, and after a delta or recompute both sides agree |
| SequenceData.OutputIsAppended | vllm/sequence.py:322-329 | the output is every appended token in order, the log probability their sum, and the computed count what was reported since the last recompute |
| SequenceData.RunsOnIff | vllm/sequence.py:375-382 | a run goes on exactly unless more tokens are reported as computed than there are |
| SequenceData.StageIff | vllm/sequence.py:375-399 | the stage is decode exactly if the computed tokens have reached the length since the last recompute |
| SequenceData.ResetAloneIff | vllm/sequence.py:392-399 | a reset without a full copy keeps the replica coherent if and only if nothing was pending |
| SequenceData.CopyIff | vllm/sequence.py:419-432 | a full copy keeps it coherent if and only if nothing is pending |
| SequenceData.TokenDeltaIs | vllm/sequence.py:559-581 | the token getter returns exactly the output since the last call |
| SequenceData.SequenceData.AppendTokenId | vllm/sequence.py:322-329 | appends to output, pending and cached tokens and adds the log probability |
| SequenceData.SequenceData.UpdateNumComputedTokens | vllm/sequence.py:375-382 | fails exactly past the length; reaching it switches to decode |
| SequenceData.SequenceData.ResetStateForRecompute | vllm/sequence.py:392-399 | clears the computed count, stage and pending tokens only |
| SequenceData.SequenceData.GetDeltaAndReset | vllm/sequence.py:419-425 | hands out the pending tokens and counters and clears the pending list |
| SequenceData.SequenceData.ApplyDelta | vllm/sequence.py:427-432 | appends the tokens and takes over the counters |
| TextStream.FindIsAdded | vllm/engine/output_processor/stop_checker.py:113-117 | the shortened search finds exactly the occurrences that the new characters complete, the first first |
| TextStream.CheckStopStrings | vllm/engine/output_processor/stop_checker.py:95-131 | the loop computes the check |
| TextStream.CheckIs | vllm/engine/output_processor/stop_checker.py:95-131 | the first-listed completed stop string at its first completed place, or nothing if none is completed |
| TextStream.CutIsBehindStream | vllm/sampling_params.py:357-360 | holding back max(len(stop)) - 1 characters keeps every cut at or after what has been streamed |
| TextStream.HoldBackIsNeeded | vllm/sampling_params.py:357-360 | for every smaller hold-back some run streams text that is no prefix of the final text |
| TextStream.DecodeKeepsStream | vllm/engine/output_processor/stop_checker.py:31-92 | no branch of the stop check changes streamed text |
| TextStream.FinishesIff | vllm/engine/output_processor/stop_checker.py:44-92 | a token finishes a running sequence exactly if enough tokens are out and it is an end or stop token, completes a stop string, or reaches a limit of the length |
| TextStream.TextAfterToken | vllm/engine/output_processor/stop_checker.py:44-92 | the text that each case leaves: all of it, without the end or stop token, or cut at the first-listed completed stop string |
| TextStream.FinishedIff | vllm/engine/output_processor/stop_checker.py:44-92 | over every run the sequence has finished exactly if such a token came while it was running |
| TextStream.ShownIs | vllm/sequence.py:540-557 | the getter shows everything once finished, and while running all but one character less than the longest stop string |
| TextStream.StreamedIsPrefix | vllm/sequence.py:540-557 | after every run the streamed deltas are a prefix of the text |
| TextStream.StreamIsComplete | vllm/sequence.py:540-557 | after finishing, the concatenated deltas are the final text |
| TextStream.ReadCatchesUp | vllm/sequence.py:540-557 | after every read, finished or not, the concatenated deltas are the cumulative output |
| TextStream.TextIsDecoded | vllm/engine/output_processor/stop_checker.py:31-92 | over every run the text is a prefix of what the tokens decode to, and all of it while running |
| TextStream.StopTokenDropped | vllm/engine/output_processor/stop_checker.py:49-70 | after every run ended by a stop token the text is all that was decoded before it, with its own text only if stop strings are kept |
| TextStream.StopStringCut | vllm/engine/output_processor/stop_checker.py:72-82 | a stop string is dropped with all that follows, or kept as the end of the text |
| TextStream.CutIsClean | vllm/engine/output_processor/stop_checker.py:113-131 | if the first-listed stop string is part of every other, the cut text contains no stop string |
| TextStream.CutCanBeUnclean | vllm/engine/output_processor/stop_checker.py:113-131 | otherwise an append whose cut text still contains a stop string |
| TextStream.CleanIff | vllm/engine/output_processor/stop_checker.py:113-131 | the exact condition under which every cut leaves clean text |
| TextStream.Sequence.DecodeToken | vllm/engine/output_processor/stop_checker.py:44-92 | the object follows the model's decode step |
| TextStream.Sequence.GetDelta | vllm/sequence.py:540-557 | the object follows the model's delta getter |
| RequestOutput.FindIndex | vllm/outputs.py:149-150 | the inner loop finds the first completion with the index, or the end |
| RequestOutput.Output.Add | vllm/outputs.py:142-171 | the nested loops compute the merge, failing exactly when it does |
| RequestOutput.MergeLooksUp | vllm/outputs.py:142-171 | with distinct indices the merge joins completions index by index |
| RequestOutput.MergeOkIff | vllm/outputs.py:158-161 | the merge fails exactly when some index would extend missing log probabilities |
| RequestOutput.MergeReplaces | vllm/outputs.py:166-168 | without aggregation a later completion replaces the earlier one, and nothing fails |
| RequestOutput.MergeAssociates | vllm/outputs.py:142-171 | merging is associative, order of completions included, where the nested merge succeeds |
| RequestOutput.RightSucceedsIff | vllm/outputs.py:142-171 | exactly when the nested merge succeeds, given that merging in order does |
| RequestOutput.FoldRebuilds | vllm/outputs.py:142-171 | folding a stream rebuilds, for every index, all its text and tokens |
| RequestOutput.FoldKeepsLatest | vllm/outputs.py:158-165 | the fold joins all log probabilities of an index as they were sent, and has the latest cumulative log probability and reasons |
| RequestOutput.FoldOkIff | vllm/outputs.py:158-161 | folding a stream succeeds if and only if no index gets log probabilities after a first output without |
| RequestStream.RunSends | vllm/outputs.py:223-296 | over every run, the outputs carry exactly the reported text and tokens of every sequence |
| RequestStream.RunSendsLogprobs | vllm/outputs.py:240-250 | for a client that gets copies, also exactly the reported log probabilities |
| RequestStream.FoldSucceeds | vllm/outputs.py:242-250 | folding the outputs of a run from its start never fails, although later deltas may lack log probabilities |
| RequestStream.FoldIsCumulative | vllm/outputs.py:142-171 | after every report of every run, the fold has the cumulative text and all tokens of every sequence |
| RequestStream.FoldOfCopies | vllm/outputs.py:158-161 | for a client that gets copies, also all log probabilities |
| RequestStream.FoldIsFinal | vllm/sequence.py:540-557 | once a sequence has finished, the folded text is its final text |
| RequestStream.FoldHasLatest | vllm/outputs.py:284-296 | the fold has the index of every sequence, the sum of its log probabilities if wanted, and a finish reason exactly if it has finished |
| RequestStream.LateStartFails | vllm/outputs.py:242-250 | a fold that starts in the middle of a run can fail |
| SharedLists.Stream.Append | vllm/sequence.py:613-620 | a token extends the sequence's list, also for every completion that refers to it |
| SharedLists.Stream.LogprobsOf | vllm/outputs.py:240-250 | a completion gets a new list of the last log probabilities, None, or the sequence's own list |
| SharedLists.Stream.Send | vllm/outputs.py:240-296 | a report hands that list out, and no two completions share any other list |
| SharedLists.Stream.Add | vllm/outputs.py:149-171 | adding the next completion extends the held list in place, or fails the assertion |
| SharedLogprobs.RunFollows | vllm/outputs.py:240-296 | the lists over every run: all empty before the first token; then counted twice if a report came first, and otherwise exactly the reported part |
| SharedLogprobs.AddFailsIff | vllm/outputs.py:158-161 | the assertion fails exactly when log probabilities would extend a completion without any |
| SharedLogprobs.HeldIsRightIff | vllm/outputs.py:158-161 | for one sequence, under any interleaving: the assertion never fails, and an up-to-date client and the sequence have the right log probabilities if and only if they are not wanted, there is no token, or no report precedes the first; otherwise at least twice as many |
| SharedLogprobs.SeqIsPlayed | vllm/sequence.py:613-620 | every sequence of every run of a request goes through such a run of its own |
| SharedLogprobs.StreamedLogprobsIff | vllm/outputs.py:223-296 | the exact condition for every sequence of every run of a request: not wanted, no token, or no report before its first token |
| SharedLogprobs.OneReport | vllm/outputs.py:240-250 | one report, added at once, brings the client up to date before there is a token |
| SharedLogprobs.EarlyReportDoubles | vllm/sequence.py:613-620 | from there on, the first token and the next report give its log probability twice, in the sequence as well |
| StreamedGroup.RunKeeps | vllm/outputs.py:178-196 | over every legal run of a streamed group, finished sub-requests have finished sequences, and once none is left, all of their text and tokens have been reported |
| StreamedGroup.NeverRaises | vllm/outputs.py:178-196 | no legal report of a streamed group raises |
| StreamedGroup.SendsIff | vllm/sequence.py:1504-1511 | exactly the reports of the first sub-request that is left send an output |
| StreamedGroup.StreamIsWhole | vllm/sequence.py:1504-1511 | in whatever order sub-requests decode, report and finish, at the end the folded outputs have the final text and all tokens of every sequence |
| ParallelSample.ResultHasWantedNumber | vllm/sampling_params.py:321-328 | with or without best_of, the one result has as many samples as the caller asked for |
| ParallelSample.SortSorts | vllm/sequence.py:1528-1529 | the ranking is a stable descending permutation |
| ParallelSample.TopIsBest | vllm/sequence.py:1524-1531 | every chosen sequence ranks before every other one |
| ParallelSample.TopIsPrefix | vllm/sequence.py:1528-1531 | the chosen sequences are the first ones of a ranking of all, in its order, each once |
| ParallelSample.RankingIsUnique | vllm/sequence.py:1528-1529 | there is only one such ranking |
| ParallelSample.AssembledIs | vllm/sequence.py:1501-1535 | the group is put together from all sequences as they stand, or with best_of from the first of the ranking |
| ParallelSample.SecondFinishRaises | vllm/sequence.py:1444-1448 | a sub-request that finishes twice raises, and so does a report to a streamed group with none left |
| ParallelSample.RefusedIff | vllm/sampling_params.py:321-328 | best_of below n is refused, and otherwise decides how many are sampled |
| ParallelSample.ReportKeepsInv | vllm/sequence.py:1444-1448 | every report keeps unfinished and finished ids a partition, and raises nothing |
| ParallelSample.WhichReport | vllm/outputs.py:178-196 | which reports yield the group: the first remaining id when streaming, otherwise the last to finish, and then all ids leave the registry |
| ParallelSample.ResultIsBest | vllm/sequence.py:1516-1532 | the result has the wanted number of sequences, the best ones |
| ParallelSample.RunKeepsInv | vllm/sequence.py:1444-1535 | over every run the ids stay partitioned; without streaming, the group is yielded once when all have finished and not before |
| ParallelSample.ParallelSampleGroup.MaybeAssembleGroup | vllm/sequence.py:1501-1535 | when and how the group is assembled |
| ParallelSample.ParallelSampleGroup.FromSeqGroup | vllm/outputs.py:178-196 | the object follows the model's handling of a report |
| BadWords.NoBadWords.InitWordBias | vllm/logits_process.py:88-119 | raises exactly on a token out of bounds; otherwise one-token words get minus infinity |
| BadWords.CheckTokenIdsBounds | vllm/logits_process.py:105-119 | the loops accept exactly the words whose tokens all lie in the vocabulary |
| BadWords.NoBadWords.Call | vllm/logits_process.py:56-86 | exactly the tokens that complete a bad word get minus infinity, all others are unchanged; the two error cases |
| BadWords.ApplyWord | vllm/logits_process.py:66-82 | one word suppresses its last token exactly when its other tokens have just passed |
| BadWords.GeneratedIff | vllm/logits_process.py:56-86 | the outputs that can be generated are exactly those without a non-empty bad word |
| BadWords.Generate | vllm/logits_process.py:56-86 | a generation loop never produces a bad word, and stops only where the model or a bad word forbids the token |
| NinjaSweep.SortedEvents | tools/report_build_time_ninja.py:206-224 | every start and stop once, by time, starts before stops |
| NinjaSweep.CoveringIsRunning | tools/report_build_time_ninja.py:225-229 | between neighbouring events the running tasks are those covering the segment |
| NinjaSweep.ShareIsFair | tools/report_build_time_ninja.py:230-255 | all tasks that run through a segment have the same share, together its length, and the others none |
| NinjaSweep.WeightAtLeast | tools/report_build_time_ninja.py:230-255 | nothing of a task's duration is left out: its weight is at least the duration divided by the number of tasks, and the busy time at least the duration |
| NinjaSweep.SweepEvents | tools/report_build_time_ninja.py:230-255 | weights are the shares of the covered segments, between 0 and the duration, and sum to the busy time; no task is left |
| NinjaSweep.Summarize | tools/report_build_time_ninja.py:206-255 | the whole summary; an empty list raises |
| VmmAllocator.AlignUpIs | vmm_allocator/vmm_allocator.cpp:208-210 | the least page multiple at or above a size |
| VmmAllocator.StepKeeps | vmm_allocator/vmm_allocator.cpp:37-187 | every operation keeps the sizes right and maps no page twice |
| VmmAllocator.RunKeeps | vmm_allocator/vmm_allocator.cpp:37-187 | over every run; without unmapping, the mapped bytes are exactly [0, mapped_size) |
| VmmAllocator.ReservedIff | vmm_allocator/vmm_allocator.cpp:37-187 | over every run the allocator is initialised exactly if some reservation has not been freed, and the first such one decides the size |
| VmmAllocator.SucceedsIff | vmm_allocator/vmm_allocator.cpp:37-187 | after every run, which operations succeed: reserving without a live reservation, mapping inside one, unmapping with one, freeing always |
| VmmAllocator.MappedIs | vmm_allocator/vmm_allocator.cpp:37-187 | a map raises the mapped size to the end of its request, a reservation and a free bring it to 0, nothing else changes it |
| VmmAllocator.MapBacks | vmm_allocator/vmm_allocator.cpp:67-134 | without unmapping, a returned map covers [offset, offset + size) |
| VmmAllocator.MapBacksIff | vmm_allocator/vmm_allocator.cpp:67-134 | in general it does exactly if the part below mapped_size was still mapped |
| VmmAllocator.PageMappedIff | vmm_allocator/vmm_allocator.cpp:37-187 | over every run a page is mapped exactly if it lies below mapped_size and no unmap since the last reservation covered it |
| VmmAllocator.MapBacksAfterRunIff | vmm_allocator/vmm_allocator.cpp:67-154 | after any run, a returned map covers its range exactly if no such unmap touched it below mapped_size |
| VmmAllocator.MapAfterUnmapIsLost | vmm_allocator/vmm_allocator.cpp:136-154 | a run in which a map returns without covering its range |
| VmmAllocator.Allocator.Reserve | vmm_allocator/vmm_allocator.cpp:37-65 | the object follows the model's reservation |
| VmmAllocator.Allocator.MapPhysical | vmm_allocator/vmm_allocator.cpp:67-134 | the object follows the model's map |
| VmmAllocator.Allocator.UnmapPhysical | vmm_allocator/vmm_allocator.cpp:136-154 | the object follows the model's unmap |
| VmmAllocator.Allocator.FreeAll | vmm_allocator/vmm_allocator.cpp:156-187 | the object follows the model's free |
| VmmAllocator.Pool.EnsureMapped | vllm/v1/worker/activation_memory_pool.py:197-230 | the required bytes end up mapped, as far as the pool goes, rounded up to chunks and pages and no further; the allocator never refuses |
| ScalarType.OrOfShifted | vllm/scalar_type.py:147-152 | or with a field shifted past all lower bits is addition |
| ScalarType.PackStep | vllm/scalar_type.py:147-152 | a packed prefix stays below its offset |
| ScalarType.PackEqualIff | vllm/scalar_type.py:147-159 | packed fields are equal exactly if their packed bits are |
| ScalarType.IdBound | vllm/scalar_type.py:138-166 | every id is below 2^58 |
| ScalarType.IdIs | vllm/scalar_type.py:138-166 | the layout of the id, bit by bit |
| ScalarType.IdEqualIff | vllm/scalar_type.py:138-166 | ids are equal exactly if the types agree in the packed bits |
| ScalarType.IdInjective | vllm/scalar_type.py:138-166 | with 8-bit exponent and mantissa and 32-bit bias the id is injective |
| ScalarType.ComputeId | vllm/scalar_type.py:138-166 | the loop computes the id and registers the type |
| ScalarType.RoundTrip | vllm/scalar_type.py:263-308 | after any constructions, from_id of a type's id is the type |
| ScalarType.UnknownId | vllm/scalar_type.py:304-308 | an id that no constructed type has raises |
| ScalarType.OverwrittenIff | vllm/scalar_type.py:164-166 | one type takes over another's id exactly if they agree in the packed bits |
| FloatMax.DecodedMax | vllm/scalar_type.py:72-109 | the pattern decodes to a normal number with the maximal fields |
| FloatMax.MaxCodeIsLargest | vllm/scalar_type.py:77-86 | the maximal fields are a finite code and bound every finite value |
| FloatMax.MaxIsLargestIff | vllm/scalar_type.py:72-109 | the decoded number is that value exactly unless the type is IEEE with one exponent bit |
| FloatMax.SingleExponentBit | vllm/scalar_type.py:81-103 | there the code's number is too large |
| FloatMax.MinIsNegated | vllm/scalar_type.py:119-128 | setting the sign bit negates the number |
| FloatMax.OneIs | vllm/scalar_type.py:72-109 | in every format the exponent field 2^(e-1) - 1 with mantissa 0 is the number 1 |
| FloatMax.Doubles | vllm/scalar_type.py:72-109 | one more in the exponent field doubles a normal number |
| FloatMax.KnownMaxima | vllm/scalar_type.py:72-109 | the maxima of E4M3, E5M2 and binary16 are 448, 57344 and 65504 |
| FloatMax.FloatExtremes | vllm/scalar_type.py:72-128 | the maximum exists exactly if the type fits binary64, the minimum if it is also signed; they bound every finite value |
| ExpertWeights.ParseDecimal | vllm_add_llada_moe/fused_moe_minimal.py:290-290 | a printed number parses back |
| ExpertWeights.ParseIff | vllm_add_llada_moe/fused_moe_minimal.py:290 | exactly the non-empty strings of digits parse |
| ExpertWeights.ParseMore | vllm_add_llada_moe/fused_moe_minimal.py:290 | each digit counts ten times the next |
| ExpertWeights.SplitJoin | vllm_add_llada_moe/fused_moe_minimal.py:287-289 | splitting a dotted name gives its parts |
| ExpertWeights.NameIs | vllm_add_llada_moe/llada_moe_vllm.py:120-154 | the names and patterns of expert weights, written out |
| ExpertWeights.PatternMatches | vllm_add_llada_moe/llada_moe_vllm.py:132-168 | a pattern occurs in an expert name exactly if it is its own |
| ExpertWeights.FindExpertPart | vllm_add_llada_moe/fused_moe_minimal.py:288-290 | the loader's loop finds the part after the first "experts" |
| ExpertWeights.ExpertOfName | vllm_add_llada_moe/fused_moe_minimal.py:286-290 | the loader parses back the printed expert |
| ExpertWeights.OwnRoute | vllm_add_llada_moe/fused_moe_minimal.py:282-316 | a weight under its own name goes to its own slot |
| ExpertWeights.BadNameIff | vllm_add_llada_moe/fused_moe_minimal.py:282-316 | a loader rejects a name exactly if no number follows its first "experts" |
| ExpertWeights.RouteByIs | vllm_add_llada_moe/fused_moe_minimal.py:282-316 | otherwise that number is the expert, and the name decides the slot, for any name |
| ExpertWeights.StoredWhere | vllm_add_llada_moe/fused_moe_minimal.py:291-297 | gate weights go to the first half of w13, up weights to the second, down weights to w2 |
| ExpertWeights.GetExpertMapping | vllm_add_llada_moe/llada_moe_vllm.py:120-154 | the loops build the table |
| ExpertWeights.InTable | vllm_add_llada_moe/llada_moe_vllm.py:120-154 | the table holds exactly the expert weights of every layer |
| ExpertWeights.LayerTableAt | vllm_add_llada_moe/llada_moe_vllm.py:120-154 | the entries of a layer, expert by expert: gate, up, down, and nothing else |
| ExpertWeights.TableAt | vllm_add_llada_moe/llada_moe_vllm.py:120-154 | the table holds the entries of the layers one after another |
| ExpertWeights.FindMapping | vllm_add_llada_moe/llada_moe_vllm.py:165-182 | the first matching entry with an existing parameter |
| ExpertWeights.FirstMatchIs | vllm_add_llada_moe/llada_moe_vllm.py:165-182 | it is the first entry that applies, or none does |
| ExpertWeights.NameRoute | vllm_add_llada_moe/llada_moe_vllm.py:162-186 | the name of an expert weight is routed to its own slot, or nowhere if its layer has no experts |
| ExpertWeights.LoadWeights | vllm_add_llada_moe/llada_moe_vllm.py:156-202 | for any names, loading fails exactly if a matching entry does not parse or names no expert, with the error of the first such entry, and otherwise every slot holds the last entry routed to it |
| ExpertWeights.LastRoutedIs | vllm_add_llada_moe/llada_moe_vllm.py:162-186 | the entry that a slot holds is the last one routed to it |
| ExpertWeights.KnownIsLoadable | vllm_add_llada_moe/llada_moe_vllm.py:156-202 | a checkpoint with the model's names loads without an error |
| ExpertWeights.CheckpointFills | vllm_add_llada_moe/llada_moe_vllm.py:156-202 | in any order of its entries, every gate, up and down weight ends in its own slot |

## Left out

- Floating-point rounding, NaN and dtype conversion in tensor code; attention, norms and sampling are arbitrary functions.
- Stores of concurrent kernel instances are ordered instance by instance; since every cell has one writer and no instance reads the output, finer interleavings give the same buffer.
- Out-of-range gather indices, which the kernel does not check.
- Dense layers and the shared expert of LLaDA-MoE, paged attention and the sequential LLaDA block.
- Dream's own recomputation of the mask; the masked positions are a parameter.
- The unused naive reuse plan, and graphs with repeated tensor names, which the graph builder rejects.
- Memory sizes in the search are exact bytes, not floating-point megabytes.
- RequestOutput.Output.Add: completions and their lists are values here. The list that a sequence shares with its completion is the subject of SharedLogprobs; two outputs sharing one completion object are not modelled.
- RequestStream: the finish and stop reasons of a sequence are reduced to whether it has finished; the reused output object (`use_cache`) is left out.
- FeedForward.MoeTile: the routing of a token (experts and weights) is one row of data computed by an arbitrary function; the sorting of tokens by expert inside the fused kernel is not modelled.
- DecoderLayer.RunRebound: final_output must be a legal place for x, which the plans of all three models satisfy.
- ChunkSearch.SearchIsOptimal: describes an analyser whose buffer is the largest peak; the repository's is not one, and SearchResults says what holds instead.
- ChunkSearch.StopsIff: the same.
- SearchResults: requests with at least one token; the exact plan size of chunks between the large and the small kind is not given in closed form.
- NinjaSweep.Summarize: tasks end no earlier than they start; the log reader and the printed report are left out.
- ParallelSample: sub-request names are their indices; metrics, prompts and the cached request output are left out.
- TextStream: detokenisation, and limits on length as a flag of the token.
- SequenceData: embeddings, prefix-cache counts and position deltas.
- BadWords: tokenisation of bad words, logits of plus infinity, and a vocabulary that changes between calls.
- ExpertWeights: numbers are strings of digits (signs, spaces and underscores that Python's `int` accepts are errors here); parameters are identified by layer and kind; default loading of other weights is left out.
- VmmAllocator: driver failures, size_t wrap-around, and the release of physical handles, which the code does not do.
- ScalarType: integer limits, names and the C++ twin.
- The C extension, HTTP, configuration, and other vLLM code that Mosaic inherits unchanged.
