# One LumenRL training step, modelled and proved

This project models the data path of one reinforcement-learning step of LumenRL, from the prompts
drawn for a rollout to the loss of the policy update, and proves that no row or token is lost,
duplicated, misaligned or given another weight on the way. Around it stand the components whose
guarantees the step rests on: checkpoint retention and resume, the asynchronous sample queue,
rollout routing replay, the loss-mask code, the draft model's attention, rollout correction and
the advantage recurrences.

Tensors are sequences of rows over mathematical integers and reals. A model forward, the scoring of
samples and the generation of tokens are uninterpreted functions; `exp` and `log` are function
parameters with the laws they are used with. Code that changes state step by step is a class or a
method with loops, proved against a specification function; the promised properties are lemmas
about that function.

| module | what it models |
|---|---|
| `Protocol`, `RowOperations`, `DataProto` | the batch, its row operations, in-place reordering and balancing |
| `Balancer`, `Chunker`, `PolicyLoss` | equal-size longest-first bins, token-budget chunks, the loss of a sharded step |
| `Dispatch` | sending shards to workers and merging what they return |
| `RolloutAssembly`, `RolloutGather` | left-padded blocks, response masks, the gather over ranks |
| `GroupFilter`, `DynamicSampling` | the group filter and the loop that generates until enough groups are kept |
| `Checkpoint`, `StateMachine` | saves, crashes at any point, restarts; runs of a machine |
| `MessageQueue` | producer, consumer and version changes in any interleaving |
| `RoutingReplay` | expert routes in packed token order, and their replay |
| `LossMaskCodec` | run lengths of a loss mask and their text |
| `Eagle3` | attention over a dense block and cached diagonals, shifted targets |
| `RolloutCorrection` | rejection masks, importance weights, the columns they read and write |
| `Advantages` | backward recurrences and leave-one-out baselines |
| `Arith`, `Seqs`, `Stats`, `Wrappers` | arithmetic, index maps, means and squares, results and options |

## Results worth knowing

- A crash-safe checkpoint needs three kept directories, or two and no crash between creating a step
  directory and writing the tracker (`Checkpoint.SafeIff`, for crashes at any set of moments). With
  two, a run loses the tracked checkpoint exactly when a save makes room while a directory above the
  tracked one is on disk (`Checkpoint.SafeIffNoLeftover`), and that takes a save that crashed half
  done and a later one (`Checkpoint.SafeUntilNextSave`, `Checkpoint.SafeIffNotTornThenDeleted`). The
  default of the callback is three.
- Before a tracker exists, a crash while the first save writes its shards leaves a directory that
  resuming picks and cannot load. The job can always be restarted exactly when no crash falls into
  the writing of shards (`Checkpoint.RestartIff`).
- Concatenation takes the ragged keys of the first part that has any, and skips parts without a key:
  the result is consistent exactly when every part carries every such key
  (`RowOperations.JoinConsistentIff`).
- Balancing is by worker, dispatch by data-parallel rank. With `m` workers a rank the shards stay
  within `m` longest rows (`DataProto.SharedRankShards`); they stay within one for all batches
  exactly when no two workers share a rank (`DataProto.WithinOneRowIff`). Two ranks of two workers
  get 6 and 2 tokens of rows with 3, 3, 1 and 1 (`DataProto.UnevenShards`).
- The trainer's sharding leaves a rank without rows exactly when there are fewer rows than ranks
  (`PolicyLoss.EveryRankHasRows`); such a rank then has no chunk to repeat
  (`Chunker.EqualizeCount`).
- A row that fills its block from the left and has an empty prompt has no column for its first
  log-prob. Widening the row later is assembling it at the larger width exactly when that log-prob
  is zero or missing (`RolloutAssembly.WidenLogprobs`). Gathering over ranks is the single-rank
  batch exactly when this hits no part narrower than the whole, and no rank without prompts meets a
  batch without a single token, whose width is then one instead of zero
  (`RolloutGather.GatheredIsWhole`). Non-empty prompts always pass (`RolloutGather.PromptsKeep`).
- A `get_batch` that times out throws away what it collected but keeps it counted as consumed. So
  the stale part of what was consumed is within the threshold, over all interleavings, exactly when
  the threshold is zero or at least one (`MessageQueue.StaleRatioIff`). The module's introduction
  calls an item stale when its version is below the current one minus one; the code, and the model,
  compare with the current version.
- Routes do not cover the tokens appended for tensor parallelism: replay refuses exactly when such
  tokens were needed (`RoutingReplay.ReplayNeedsNoPadding`).
- The backward loop of the advantage estimator picks up what is stored just past the last token. On
  a row padded on the right the result is the textbook sum exactly when that is nothing, or the
  discounts vanish (`Advantages.GaeExactIff`). The next value is zeroed at the count of valid tokens
  minus one, which on a row padded on the left is not the last token: there the result is the
  textbook sum exactly when the discount is zero, or the first value of the row is zero and so is the
  value at the count, if that is inside the response (`Advantages.GaeSuffixIff`, and
  `Advantages.PaddingValueLeaks` for an input). `Advantages.GaeBlockIff` has the condition for
  padding on both sides.
- A scalar reward is placed at the count of valid tokens minus one. On a row padded on the left that
  is a response token only if the response is longer than the padding
  (`Advantages.SuffixRewardIndex`); otherwise every return in the response is zero
  (`Advantages.SuffixRewardLost`). The returns are those of the reward at the last token exactly
  when there is no padding on the left, or no reward (`Advantages.SuffixReturns`).
- The effective sample size divides by zero exactly when no marked weight is positive, which makes
  the whole weight computation fail (`RolloutCorrection.SampleSizeFailsIff`,
  `RolloutCorrection.Compute`): with one bound when no position is marked, with two when every marked
  ratio lies outside them (`RolloutCorrection.AnyWeightIff`).
- A speculative step reads zero-padded teacher states exactly when the loss mask reaches past the
  teacher states (`Eagle3.PaddingReadIff`).

## Model

| member | source | states |
|---|---|---|
| Protocol.ReindexRows | lumenrl/core/protocol.py:39-45 | reindexing a batch picks whole rows: every tensor and ragged column of row `i` comes from the same original row |
| Protocol.ChunksCover | lumenrl/core/protocol.py:197-212 | the chunks of a split hold every row once, in order, for any number of chunks |
| Protocol.ChunksAreEven | lumenrl/core/protocol.py:203-205 | any two chunks of a split differ by at most one row |
| Protocol.RejoinPieces | lumenrl/core/protocol.py:214-280 | concatenating or merging any pieces of a batch gives the rows of the pieces in order, right-padding included |
| Protocol.MergeSplit | lumenrl/core/protocol.py:197-280 | splitting into any number of chunks, more than there are rows included, and merging gives the batch back |
| Protocol.NothingToSplit | lumenrl/core/protocol.py:199-200 | a batch without rows splits and pads to batches without columns |
| Protocol.JoinColumnsOkIff | lumenrl/core/protocol.py:258-268 | columns join if and only if all are matrices or none is and, for concatenation, their widths agree |
| Protocol.PadIsReindex | lumenrl/core/protocol.py:307-325 | padding repeats rows from the start, wrapping around, until the divisor divides the size, with the least padding |
| Protocol.UnpadPad | lumenrl/core/protocol.py:307-338 | unpadding takes off exactly what padding added |
| Protocol.ReindexReindex | lumenrl/core/protocol.py:181-195 | two selections in a row are one selection by the composed index map |
| RowOperations.RepeatIsReindex | lumenrl/core/protocol.py:340-360 | interleaved and tiled repetition move tensor and ragged columns by the same index map, though the code computes them differently |
| RowOperations.SampleRepeatIsReindex | lumenrl/core/protocol.py:362-391 | repeating each row its own number of times moves all columns by the same index map |
| RowOperations.OperationsMoveRows | lumenrl/core/protocol.py:181-391 | after any sequence of row operations row `i` is one whole row of the original batch, the same one in every column |
| RowOperations.JoinConsistentIff | lumenrl/core/protocol.py:46-57 | joining keeps the batch consistent if and only if every part carries every ragged column the first ragged part has |
| Protocol.FirstRaggedIs | lumenrl/core/protocol.py:46-51 | the ragged keys of a joined batch are those of the first part that has any |
| RowOperations.SelectMaskIs | lumenrl/core/protocol.py:168-195 | a mask of the right length selects whole rows in order, any other is refused unless there are no rows |
| DataProto.DataProto.Reorder | lumenrl/core/protocol.py:296-305 | reordering in place leaves the batch the selection of its old state, or untouched when an index is out of range; negative positions wrap twice, once here and once in the tensor |
| DataProto.DataProto.Update | lumenrl/core/protocol.py:290-294 | updating keeps a batch consistent when both have the same rows |
| Balancer.LongestFirstSorts | lumenrl/trainer/rl_trainer.py:3805 | the order is a permutation of the rows, descending by length, ties in row order |
| Balancer.LeastLoadedOpenIsLeast | lumenrl/trainer/rl_trainer.py:3809-3812 | the chosen bin is open, no heavier than any open bin, lighter than every open one before it; there is none only if all are full |
| Balancer.AssignedAhead | lumenrl/trainer/rl_trainer.py:3806-3814 | while rows are handed out, any prefix of one bin exceeds the same-length prefix of another by at most the longest row |
| Balancer.BalancedLoads | lumenrl/trainer/rl_trainer.py:3800-3815 | the bins hold every row once and the same number each, and any two token loads differ by at most the longest row |
| Balancer.StragglerBound | lumenrl/trainer/rl_trainer.py:3800-3815 | no bin exceeds the average load by more than (workers - 1) / workers of the longest row |
| Balancer.AssignRows | lumenrl/trainer/rl_trainer.py:3803-3814 | the assignment loop computes those bins and never runs out of an open one |
| DataProto.BalanceRowsAcrossWorkers | lumenrl/trainer/rl_trainer.py:3789-3822 | balances the batch in place, permutes row-long metadata lists with it, and does nothing in the cases the code skips |
| DataProto.BalancedShards | lumenrl/trainer/rl_trainer.py:3800-3822 | splitting the balanced batch gives worker `j` exactly bin `j`: same number of rows each, loads within the longest row |
| DataProto.SharedRankShards | lumenrl/trainer/rl_trainer.py:3923-3943 | when `m` workers share a rank, a rank's shard is `m` consecutive bins and shards stay within `m` longest rows |
| DataProto.UnevenShards | lumenrl/trainer/rl_trainer.py:3923-3943 | for any two or more ranks of `m` workers, two or more, a batch whose longest row has 3 tokens and whose first two shards hold 3 `m` and `m` |
| DataProto.WithinOneRowIff | lumenrl/trainer/rl_trainer.py:3923-3943 | all balanced batches leave every two rank shards within one longest row if and only if no two workers share a rank |
| Chunker.GreedyIsLegal | lumenrl/trainer/rl_trainer.py:3033-3044 | greedy chunks partition the rows in order; each is one row or fits the budget, and none could have taken one row more |
| Chunker.GreedyIsOptimal | lumenrl/trainer/rl_trainer.py:2653-2667 | no way to cut the rows, in this order, into legal chunks uses fewer chunks |
| Chunker.GreedyCount | lumenrl/trainer/rl_trainer.py:2801-2813 | with two chunks or more, (chunks - 1) times the budget is below twice the tokens |
| Chunker.ChunkByTokens | lumenrl/trainer/rl_trainer.py:2653-2667 | the chunk loop terminates and computes the greedy chunks |
| Chunker.EqualizeCount | lumenrl/trainer/rl_trainer.py:2669-2677 | repeats the last chunk up to the busiest rank's count, and fails exactly when there is none to repeat |
| Chunker.ForwardAll | lumenrl/trainer/rl_trainer.py:2653-2709 | running all chunks, dummies included, and keeping the real outputs gives the row-wise output in order |
| Chunker.DynamicMiniBatches | lumenrl/trainer/rl_trainer.py:3009-3048 | the mini-batches are the greedy chunks of the length-sorted rows, tensor columns only; without a token budget they are the fixed-size ones |
| Chunker.MiniBatchesCover | lumenrl/trainer/rl_trainer.py:3016-3048 | the mini-batches hold every row exactly once |
| Chunker.MiniBatchesFit | lumenrl/trainer/rl_trainer.py:3024-3044 | a mini-batch is one row or within the budget by the attention mask, its rows ascend in length, and the next row would not have fit |
| Chunker.MiniBatches | lumenrl/core/protocol.py:393-402 | slices of the fixed size in order, ragged columns included; fails on size zero and gives none for a negative size |
| Chunker.FixedCover | lumenrl/core/protocol.py:393-402 | merging the fixed-size mini-batches gives the batch back |
| PolicyLoss.ShardsPartition | lumenrl/trainer/rl_trainer.py:3279-3295 | the ranks' slices are the rows in order, none lost or repeated |
| PolicyLoss.EveryRankHasRows | lumenrl/trainer/rl_trainer.py:3279-3283 | no rank is left without rows if and only if there are at least as many rows as ranks |
| PolicyLoss.ShardSizes | lumenrl/trainer/rl_trainer.py:3279-3283 | every rank but the last takes its whole part of the rows, the last what is left |
| PolicyLoss.GlobalCountIs | lumenrl/trainer/rl_trainer.py:3479-3486 | the counts summed over the ranks are the count of the whole batch |
| PolicyLoss.GlobalCountCounts | lumenrl/trainer/rl_trainer.py:3479-3486 | the count given to the ranks is the number of marked tokens of the whole batch, or of rows with one in the sequence modes |
| PolicyLoss.DummyNumerator | lumenrl/trainer/rl_trainer.py:3502-3515 | a mini-batch with a zeroed response mask adds nothing to the loss |
| PolicyLoss.TokenMeanIsMean | lumenrl/algorithms/loss_functions.py:39-44 | on one process token-mean is the mean of the losses of the marked tokens, zero if there is none |
| PolicyLoss.SequenceModesAreMeans | lumenrl/algorithms/loss_functions.py:46-66 | the sequence modes are the mean, over rows with a marked token, of the row's summed loss, by itself, over the width, or over its marked tokens |
| PolicyLoss.ConstantTokenMean | lumenrl/algorithms/loss_functions.py:39-44 | if every marked token has loss `c`, token-mean is `c` |
| PolicyLoss.ConstantSequenceModes | lumenrl/algorithms/loss_functions.py:46-66 | if also every row with marked tokens has `k`, the sequence modes give `c` times `k` as each of them scales it |
| PolicyLoss.CountIsNeeded | lumenrl/algorithms/loss_functions.py:39-66 | aggregation fails exactly when several ranks share the batch and no global count is given |
| PolicyLoss.TokenLossByAdvantage | lumenrl/algorithms/loss_functions.py:203-225 | the ratio counts up to the upper clip with a positive advantage, and from the lower clip to the cap with a negative one |
| PolicyLoss.SameLossWhateverOrder | lumenrl/algorithms/loss_functions.py:30-68 | the aggregated loss does not depend on the order of the rows, in any of the four modes |
| PolicyLoss.ShardedLossIsWholeLoss | lumenrl/algorithms/loss_functions.py:203-234 | for any ranks, budget, row orders within ranks and dummy passes, the rank average of summed mini-batch losses is the loss of the whole batch |
| PolicyLoss.ShuffledLossIsWholeLoss | lumenrl/trainer/rl_trainer.py:3476-3542 | the same after any permutation of the rows before sharding |
| PolicyLoss.AccumulateRank | lumenrl/trainer/rl_trainer.py:3502-3542 | one rank's loop pads with dummies and accumulates exactly its share |
| Dispatch.MergePadsOnce | lumenrl/core/protocol.py:245-268 | merging blocks padded to widths of their own is padding once to the common width |
| Dispatch.MergeComputed | lumenrl/controller/dispatch.py:295-309 | merging what workers computed on groups of rows, empty groups included, is computing on all the rows |
| Dispatch.MaskedSnoc | lumenrl/controller/dispatch.py:295-309 | results are collected in order, a further one exactly if it is marked |
| Dispatch.CallComputesMaskedShards | lumenrl/controller/ray_worker_group.py:299-338 | for any mask the call returns the results on the shards of the collected workers' ranks, in the order the workers are listed, and the empty batch if they hold no row |
| Dispatch.CallIsOneWorker | lumenrl/controller/dispatch.py:276-309 | when the collected workers name every rank once in increasing order, the call is one worker on the whole batch, however many peers share a rank |
| Dispatch.PaddedCallIsOneWorker | lumenrl/controller/ray_worker_group.py:322-338 | still so with padding to any divisor before and unpadding after |
| RolloutAssembly.FillBlock | lumenrl/trainer/rl_trainer.py:2029-2046 | writing cell by cell fills exactly the block's tokens, mask and one-column-shifted log-probs |
| RolloutAssembly.PreparedFits | lumenrl/trainer/rl_trainer.py:2016-2027 | a completion is the beginning of the answer, exactly as long as the budget leaves room for, with the beginning of its log-probs or zeros |
| RolloutAssembly.FilledIsBlock | lumenrl/trainer/rl_trainer.py:2029-2046 | those cells are the rows of the left-padded block |
| RolloutAssembly.ResponseRecovered | lumenrl/trainer/rl_trainer.py:51-62 | the response ids come back exactly from mask and prompt length, whichever side the row is padded on |
| RolloutAssembly.AssembledResponse | lumenrl/trainer/rl_trainer.py:700-715 | so do those of every assembled row, at any width that holds it |
| RolloutAssembly.BuildResponseMask | lumenrl/trainer/rl_trainer.py:2765-2785 | clears each row's prompt and drops the first column; fails exactly when some row has no real token |
| RolloutAssembly.MaskMarksLogprobs | lumenrl/trainer/rl_trainer.py:2778-2785 | a column of the response mask is one if and only if a response log-prob was written there, and the matrix then holds it |
| RolloutAssembly.LogprobLeftOfToken | lumenrl/trainer/rl_trainer.py:2038-2046 | the log-prob of each response token stands one column left of the token |
| RolloutAssembly.WidenRows | lumenrl/trainer/rl_trainer.py:2384-2396 | widening on the left later is assembling at the larger width |
| RolloutAssembly.WidenLogprobs | lumenrl/trainer/rl_trainer.py:2034-2046 | so it is for log-probs if and only if nothing is widened, or the prompt is not empty, the row does not fill its block, or its first log-prob is missing or zero |
| RolloutGather.LocalsCover | lumenrl/trainer/rl_trainer.py:2054-2060 | the ranks' prompt ranges are all the prompts in order, for any rank count |
| RolloutGather.GatherParts | lumenrl/trainer/rl_trainer.py:2112-2189 | padding, gathering and trimming the blocks of any parts gives the block of the parts put together if and only if the common width is right and no first log-prob of a narrower part lacks a column |
| RolloutGather.GatheredIsWhole | lumenrl/trainer/rl_trainer.py:2053-2189 | the gathered batch is the one a single rank would have assembled (rows, tokens, masks, prompt lengths, log-prob columns) if and only if the ranks' parts meet that condition |
| RolloutGather.PromptsKeep | lumenrl/trainer/rl_trainer.py:2053-2189 | batches without empty prompts always meet it, for any number of ranks |
| RolloutGather.AnswersGather | lumenrl/trainer/rl_trainer.py:2011-2071 | from the engine's answers on: cutting to the budget, assembling on any number of ranks and gathering is cutting and assembling on one, for non-empty prompts and no more log-probs than tokens |
| GroupFilter.FilterGroupsKeepMask | lumenrl/algorithms/dapo_sampling.py:64-106 | keeps the samples whose group has one member or spread above the threshold, lists kept ids by first appearance, and fails on different lengths |
| GroupFilter.KeptIffSpread | lumenrl/algorithms/dapo_sampling.py:95-102 | with threshold zero a group of several samples is kept if and only if two of them score differently |
| GroupFilter.SmallGroups | lumenrl/algorithms/dapo_sampling.py:95-102 | one sample is kept; two are kept if and only if half their distance, their standard deviation, is above the threshold |
| GroupFilter.FilterByPosition | lumenrl/trainer/rl_trainer.py:2342-2343 | on ids given by position the kept ids are the prompts whose own block has spread, in order |
| GroupFilter.SampleByPosition | lumenrl/trainer/rl_trainer.py:2342-2344 | and a sample is kept exactly when its prompt is |
| DynamicSampling.KeepOfRound | lumenrl/trainer/rl_trainer.py:2342-2344 | the kept rows of a round are the whole blocks of the kept prompts |
| DynamicSampling.WantedRowsFit | lumenrl/trainer/rl_trainer.py:2287-2289 | the wanted rows are the training batch cut to whole groups, and never less than one group |
| DynamicSampling.Fallbacks | lumenrl/trainer/rl_trainer.py:2287-2344 | what a generation batch or round limit that is not positive falls back to |
| DynamicSampling.DrawnIsSound | lumenrl/trainer/rl_trainer.py:2334-2358 | after any number of rounds all accumulators list exactly the kept samples, in one common order |
| DynamicSampling.RolloutCollector.Accumulate | lumenrl/trainer/rl_trainer.py:2334-2358 | the loop terminates within the round limit, stops as soon as enough groups are kept, and moves the cursor past what it drew |
| DynamicSampling.RolloutCollector.CollectFiltered | lumenrl/trainer/rl_trainer.py:2318-2418 | delivers the first kept groups, whole, and fails exactly when none was kept |
| DynamicSampling.DeliveredCount | lumenrl/trainer/rl_trainer.py:2398-2407 | on reaching the target every column has exactly the wanted rows, otherwise those of all kept groups |
| DynamicSampling.DeliveredBlock | lumenrl/trainer/rl_trainer.py:2384-2407 | each block of rows is one prompt's whole group from one round; tokens, mask, reward, prompt length, answer, log-probs and ragged entries of a row describe one sample |
| DynamicSampling.DeliveredIsAssembled | lumenrl/trainer/rl_trainer.py:2384-2407 | if the rounds hold assembled completions, the delivered rows are the kept completions assembled at the batch's width; their responses can be read back, and their log-probs are in place exactly where the first one has a column |
| DynamicSampling.GroupsAreMixed | lumenrl/trainer/rl_trainer.py:2342-2358 | a delivered group of two or more holds both a correct and an incorrect sample |
| DynamicSampling.GroupsInOrder | lumenrl/trainer/rl_trainer.py:2334-2358 | groups are listed by round and prompt, none twice |
| DynamicSampling.TruthIsThePrompts | lumenrl/trainer/rl_trainer.py:2336-2339 | the reference answer of a row is that of the prompt at the cursor it was generated from |
| Checkpoint.SurvivesPruning | lumenrl/trainer/callbacks.py:244-258 | a directory survives pruning if and only if at most that many are at or above it |
| Checkpoint.CheckpointStore.PruneOld | lumenrl/trainer/callbacks.py:244-258 | the pop-the-oldest loop leaves the highest steps |
| Checkpoint.CheckpointStore.Save | lumenrl/trainer/callbacks.py:153-185 | an uninterrupted save prunes, writes, tracks and prunes again, within the limit |
| Checkpoint.CheckpointStore.FindLatest | lumenrl/trainer/rl_trainer.py:1501-1525 | finds the tracked step if its directory is there, else the highest step with one |
| Checkpoint.SaveIsRun | lumenrl/trainer/callbacks.py:153-185 | that save is one of the runs of the crash-step machine |
| Checkpoint.NeverTooMany | lumenrl/trainer/callbacks.py:157-185 | in every state of every run, crashes included, at most the limit of step directories exist |
| Checkpoint.SafeIff | lumenrl/trainer/callbacks.py:153-185 | for crashes at any set of moments, the tracked checkpoint is always there, complete and the one resumed if and only if three or more are kept, or two and no crash falls between creating a step directory and writing the tracker |
| Checkpoint.SafeUntilNextSave | lumenrl/trainer/callbacks.py:157-185 | with two kept it is safe through any crashes up to a save that makes room after an earlier one crashed half done |
| Checkpoint.SafeIffNotTornThenDeleted | lumenrl/trainer/callbacks.py:157-185 | with two kept, and a tracker written before any save crashed half done, a run keeps it if and only if no such crash is followed by a save that makes room |
| Checkpoint.SafeIffNoLeftover | lumenrl/trainer/callbacks.py:157-165 | with two kept any run keeps it if and only if no save makes room while a directory above the tracked one is on disk |
| Checkpoint.TrackerMovesForward | lumenrl/trainer/rl_trainer.py:1527-1549 | with three or more kept, or two and no crash between creating a step directory and writing the tracker: once set, the tracker only moves forward by one save interval, through crashes and resumes |
| Checkpoint.RestartIff | lumenrl/trainer/rl_trainer.py:1501-1549 | under the same settings every state after a crash can be restarted from if and only if no crash falls into the writing of shards |
| MessageQueue.StaleWithin | lumenrl/trainer/message_queue.py:106-117 | a batch never holds more stale items than its share |
| MessageQueue.ShareIsFloor | lumenrl/trainer/message_queue.py:90-92 | a batch's share of stale items is the whole part of its size times the threshold |
| MessageQueue.AsyncMessageQueue.Put | lumenrl/trainer/message_queue.py:68-72 | adds at the end unless full, and counts what was added |
| MessageQueue.AsyncMessageQueue.GetBatch | lumenrl/trainer/message_queue.py:74-124 | polls until the batch is complete or the polls are used up, takes items in queue order, drops one only when it is older than the version current at its poll and the share is used up, accounts for every item, and times out with less than asked for |
| MessageQueue.JudgedUnderCurrent | lumenrl/trainer/message_queue.py:103-112 | every item is judged under the last version set by its poll, at most one item a poll |
| MessageQueue.FreshBatch | lumenrl/trainer/message_queue.py:106-117 | while the version stays, a batch that may hold no stale item holds none older than it |
| MessageQueue.UnlimitedTakesAll | lumenrl/trainer/message_queue.py:68-72 | a queue without a limit takes everything offered, at the end and in order |
| MessageQueue.NothingLost | lumenrl/trainer/message_queue.py:68-124 | over all interleavings what was put in is, in order, what calls dequeued, what is in hand and what is queued; batches are exact and their stale part bounded |
| MessageQueue.TimeoutsAreShort | lumenrl/trainer/message_queue.py:95-101 | a call that timed out held less than it was asked for |
| MessageQueue.StaleRequestedRatio | lumenrl/trainer/message_queue.py:118-122 | between calls the stale items consumed are within the threshold of what was asked for |
| MessageQueue.StaleRatio | lumenrl/trainer/message_queue.py:129-139 | if every call was answered they are within the threshold of what was consumed |
| MessageQueue.StaleRatioIff | lumenrl/trainer/message_queue.py:95-139 | over all interleavings, timeouts included, stale consumed stays within the threshold of consumed if and only if the threshold is zero or at least one |
| RoutingReplay.PackRolloutRouting | lumenrl/moe/rollout_routing.py:115-152 | lays the routes out by packed position, returns nothing without tokens or rows, and fails exactly on a used route of the wrong shape |
| RoutingReplay.SlotOf | lumenrl/moe/rollout_routing.py:134-151 | position `t` of sequence `i` is at the earlier lengths plus `t`; the last token is never covered and nothing spills into the next sequence |
| RoutingReplay.PackSequences | lumenrl/engine/training/packing.py:144-191 | packs the contents of left-padded rows one after the other, then as few zeros as make the length a multiple of the alignment |
| RoutingReplay.RoutingFollowsTokens | lumenrl/core/protocol.py:39-57 | after any row operations the packed token and the packed route at a position come from the same position of the same original row |
| RoutingReplay.RoutingFollowsContents | lumenrl/core/protocol.py:39-57 | after any row operations token `t` of the `i`-th content is packed right after the contents before, with its route, which the last token of a content does not have |
| RoutingReplay.ReplayUsesRollout | lumenrl/moe/rollout_routing.py:96-112 | a recorded layer uses the rollout's experts exactly at covered positions, its own elsewhere, with weights from its own probabilities |
| RoutingReplay.ReplaySucceedsIff | lumenrl/moe/rollout_routing.py:96-112 | replay of a recorded layer succeeds if and only if every token's expert ids, the rollout's where covered and its own elsewhere, are below the width of its probabilities |
| RoutingReplay.ReplayNeedsNoPadding | lumenrl/moe/rollout_routing.py:59-68 | a recorded layer refuses to replay if and only if alignment added tokens |
| RoutingReplay.Nested | lumenrl/moe/rollout_routing.py:71-87 | with nested contexts the innermost is seen, and afterwards the slot is as before |
| LossMaskCodec.PackLossMask | lumenrl/data/kimi_k25_parser.py:258-286 | the run loop computes the run lengths |
| LossMaskCodec.UnpackLossMask | lumenrl/data/kimi_k25_parser.py:289-309 | writing the odd runs into a zero mask expands the run lengths; negative lengths move backwards and slice from the end, and a negative total fails |
| LossMaskCodec.SliceBoundIs | lumenrl/data/kimi_k25_parser.py:304-307 | a negative slice bound counts from the end, and no bound goes past either end |
| LossMaskCodec.UnpackPack | lumenrl/data/kimi_k25_parser.py:258-309 | decoding the code gives a list back if and only if it holds zeros and ones alone |
| LossMaskCodec.PackIsCanonical | lumenrl/data/kimi_k25_parser.py:258-286 | only the first run of a code may be empty |
| LossMaskCodec.PackUnpack | lumenrl/data/kimi_k25_parser.py:258-309 | packing undoes unpacking if and only if the list is canonical |
| LossMaskCodec.PackIsShortest | lumenrl/data/kimi_k25_parser.py:258-286 | no shorter alternating list decodes to the same mask |
| LossMaskCodec.DeserializeSerialize | lumenrl/data/kimi_k25_parser.py:312-319 | reading back the text of any list of integers gives the list |
| LossMaskCodec.SpacesAndSignParse | lumenrl/data/kimi_k25_parser.py:316-319 | white space around a number and a sign before it are read as the language does |
| LossMaskCodec.MaskRoundTrip | lumenrl/data/kimi_k25_parser.py:258-319 | a mask survives packing, writing, reading and unpacking |
| Eagle3.AttentionIsOneSoftmax | lumenrl/models/eagle3.py:399-405 | the attention output is one softmax-weighted sum over the concatenated scores and values |
| Eagle3.AttentionOfEqual | lumenrl/models/eagle3.py:383-407 | the weights of a query add up to one: if all it sees (itself, earlier real tokens, its own cached steps) has value `c`, the output is `c` |
| Eagle3.CachedAttnMatmul | lumenrl/models/eagle3.py:383-407 | the plain path computes it, for any number of cached steps |
| Eagle3.VarlenCausalAttn | lumenrl/utils/flash_attn.py:42-111 | packing the real tokens, causal attention and unpacking is masked causal attention, with minus infinity at padding |
| Eagle3.JointIsWhole | lumenrl/models/eagle3.py:366-369 | the joint log-sum-exp of the dense block and the diagonals is the logarithm of the whole mass |
| Eagle3.CachedAttnFlash | lumenrl/models/eagle3.py:346-381 | the fast path gives the same output as the plain path at every real token, for any number of cached steps |
| Eagle3.Steps | lumenrl/models/eagle3.py:566-669 | at step `s` position `t` sees id, mask and teacher state of position `t + s`, zeros past the end, and inputs looked up from the shifted ids |
| Eagle3.ClampIsNearest | lumenrl/models/eagle3.py:566-669 | an id outside the vocabulary becomes the nearest one inside |
| Eagle3.PaddingReadIff | lumenrl/models/eagle3.py:566-567 | a position in a masked loss reads zero-padded teacher states if and only if the mask reaches past them within the steps' range; with equal lengths never |
| RolloutCorrection.RejectionMask | lumenrl/algorithms/rollout_correction.py:147-264 | a token stays if and only if it was in the mask and every criterion, each with its own threshold, keeps it; fails exactly when the criteria do not parse or one takes a maximum over rows without columns |
| RolloutCorrection.ResolvedBounds | lumenrl/algorithms/rollout_correction.py:122-142 | which thresholds each criterion takes, and that a missing lower bound becomes the reciprocal of the upper |
| RolloutCorrection.CriteriaParse | lumenrl/algorithms/rollout_correction.py:114-142 | options parse if and only if there is one, thresholds are one or one for each different option, and each is taken |
| RolloutCorrection.TokenCriterionKeeps | lumenrl/algorithms/rollout_correction.py:176-222 | which log-ratios each token-level criterion keeps |
| RolloutCorrection.MaximumCriterionKeeps | lumenrl/algorithms/rollout_correction.py:199-240 | a maximum criterion keeps a row if and only if the token-level one of its kind keeps every marked token |
| RolloutCorrection.MaximumIsLargest | lumenrl/algorithms/rollout_correction.py:199-202 | the maximum over marked tokens is one of their values and none is larger |
| RolloutCorrection.SumAndMeanOfEqual | lumenrl/algorithms/rollout_correction.py:193-236 | on rows whose marked tokens agree the mean criterion is the token-level one, and the sum criterion compares as many times as much |
| RolloutCorrection.OrderIsIrrelevant | lumenrl/algorithms/rollout_correction.py:207-245 | parsed criteria that are the same as sets give the same mask |
| RolloutCorrection.PermutedOptions | lumenrl/algorithms/rollout_correction.py:114-143 | permuting the options together with their thresholds gives the same mask, or fails in both orders |
| RolloutCorrection.SharedThreshold | lumenrl/algorithms/rollout_correction.py:118-119 | with one threshold for all, any list of the same options, repeats included, gives the same mask or fails alike |
| RolloutCorrection.CombinedIsIntersection | lumenrl/algorithms/rollout_correction.py:242-264 | the mask is the intersection of each criterion's own, and no token is added |
| RolloutCorrection.SequencesStayWhole | lumenrl/algorithms/rollout_correction.py:224-240 | sequence-level criteria keep a row as it is or drop it whole |
| RolloutCorrection.NormalizedMeanIsOne | lumenrl/algorithms/rollout_correction.py:381-394 | normalised weights have mean one if and only if the mean was above the cutoff, by token and by sequence |
| RolloutCorrection.MeanOfEqualWeights | lumenrl/algorithms/rollout_correction.py:381-394 | if all marked weights are `v`, normalisation divides by `v` at every level |
| RolloutCorrection.SampleSizeFailsIff | lumenrl/algorithms/rollout_correction.py:356-360 | the effective sample size divides by zero if and only if no marked weight is positive |
| RolloutCorrection.AnyWeightIff | lumenrl/algorithms/rollout_correction.py:310-360 | some marked weight is positive if and only if, with one bound, a position is marked, and with two, a marked clamped ratio lies between them |
| RolloutCorrection.SampleSizeBound | lumenrl/algorithms/rollout_correction.py:356-360 | it is at most the square of one plus the constant over the mean weight, for any number of tokens |
| RolloutCorrection.SampleSizeOfEqual | lumenrl/algorithms/rollout_correction.py:356-360 | of equal weights it is the square of one plus the constant over the weight, or over the bound if they exceed it |
| RolloutCorrection.CorrectionBatch.CleanBatchLogprobs | lumenrl/algorithms/rollout_correction.py:535-585 | lines the columns up at their common width and replaces unreported log-probs, in the batch too |
| RolloutCorrection.CleaningIsIdempotent | lumenrl/algorithms/rollout_correction.py:564-578 | cleaning twice is cleaning once |
| RolloutCorrection.Compute | lumenrl/algorithms/rollout_correction.py:461-518 | weights and mask from the aligned columns, and exactly when the computation fails |
| RolloutCorrection.TokenWeightIsRatio | lumenrl/algorithms/rollout_correction.py:476-487 | inside bounds, a marked token's weight times its rollout probability is its probability under the trainer's policy |
| RolloutCorrection.TokenWeightOutOfBounds | lumenrl/algorithms/rollout_correction.py:314-318 | past the bounds a weight is the upper one or, with two, zero |
| RolloutCorrection.BoundedIsNearest | lumenrl/algorithms/rollout_correction.py:306-310 | a log-ratio is replaced by the nearest one within the safety bound |
| RolloutCorrection.SequenceWeightIsRatio | lumenrl/algorithms/rollout_correction.py:306-310 | with sums over sequences the same for the products over a row's marked tokens |
| RolloutCorrection.SequenceMeanWeightIsRatio | lumenrl/algorithms/rollout_correction.py:267-310 | with means, for the weight taken once for each marked token |
| RolloutCorrection.CorrectionBatch.Correct | lumenrl/algorithms/rollout_correction.py:588-629 | stores the spliced mask under the key it was read from and the weights if there are any, and changes neither on failure |
| RolloutCorrection.StoredWeightIsRatio | lumenrl/algorithms/rollout_correction.py:588-629 | the stored weights turn the reported probabilities of the batch into the trainer's, an unreported one counting as the trainer's own |
| RolloutCorrection.SplicedMask | lumenrl/algorithms/rollout_correction.py:616-625 | columns past the common width stay, and within it tokens are only removed |
| Advantages.GaeReturns | lumenrl/algorithms/advantage_estimators.py:102-124 | the backward loop computes the recurrence, and masks advantages and returns |
| Advantages.GaeIsWeightedSum | lumenrl/algorithms/advantage_estimators.py:111-124 | on a right-padded row it is the power-weighted sum of residuals plus what is stored just past the last token |
| Advantages.GaeExactIff | lumenrl/algorithms/advantage_estimators.py:111-124 | on a right-padded row it is that sum alone if and only if a discount is zero, the row is full, or reward and value agree just past the last token |
| Advantages.GaePlusValue | lumenrl/algorithms/advantage_estimators.py:118-124 | with lambda one, on a right-padded row, advantage plus value is the discounted reward to go if and only if the discount is zero, the row is full, or reward and value agree just past the last token |
| Advantages.GaeBlockIff | lumenrl/algorithms/advantage_estimators.py:102-124 | with padding before, after or both, every response position has the textbook sum if and only if the discount is zero, or what follows the last token adds nothing and the zeroed next value falls outside the response or on a zero |
| Advantages.GaeBlockPlusValue | lumenrl/algorithms/advantage_estimators.py:118-124 | with lambda one the same condition decides whether advantage plus value is the discounted reward to go at every response position |
| Advantages.GaeSuffixIff | lumenrl/algorithms/advantage_estimators.py:111-124 | on a row padded on the left every response position has the textbook sum if and only if the discount is zero, or the first value of the row is zero and so is the value at the count of tokens if that is in the response |
| Advantages.GaeSuffixPlusValue | lumenrl/algorithms/advantage_estimators.py:118-124 | the same for advantage plus value at lambda one |
| Advantages.PaddingValueLeaks | lumenrl/algorithms/advantage_estimators.py:111-114 | an input with nothing past the last token whose advantage is the value of the padding |
| Advantages.DiscountedReturns | lumenrl/algorithms/advantage_estimators.py:336-342 | the reverse iteration computes the discounted returns |
| Advantages.PrefixReturns | lumenrl/algorithms/advantage_estimators.py:333-342 | on a right-padded row each token's return is the reward discounted once for each later token |
| Advantages.SuffixRewardIndex | lumenrl/algorithms/advantage_estimators.py:80-99 | on a left-padded row the reward lands on a response token if and only if the response is longer than the padding |
| Advantages.SuffixRewardLost | lumenrl/algorithms/advantage_estimators.py:86-99 | when it does not, every return in the response is zero |
| Advantages.BlockReturns | lumenrl/algorithms/advantage_estimators.py:333-342 | wherever the padding is, every response token's return is the reward discounted once for each later token if and only if no padding comes first or the reward is zero |
| Advantages.SuffixReturns | lumenrl/algorithms/advantage_estimators.py:333-342 | on a left-padded row they are right if and only if there is no padding or no reward |
| Advantages.RlooFormsAgree | lumenrl/algorithms/advantage_estimators.py:675-690 | for groups of two or more the vectorised form gives the same advantages, sample by sample |
| Advantages.GroupSumsToZero | lumenrl/algorithms/advantage_estimators.py:376-390 | within a group the leave-one-out advantages sum to zero |
| Advantages.HigherScoreHigherAdvantage | lumenrl/algorithms/advantage_estimators.py:376-390 | of two samples of a group the higher score has the higher advantage |
| Advantages.AgainstEqualOthers | lumenrl/algorithms/advantage_estimators.py:376-390 | if the others all score `m`, a sample's advantage is its score minus `m` |
| Advantages.RlooBlock | lumenrl/algorithms/advantage_estimators.py:376-390 | each block of the flat result is its group's advantages |

## Left out

- Ray actors, process groups, CUDA, weight transfer and the file system itself: a collective is a function over all ranks' inputs, a directory is absent, bare, partial or complete, and the tracker is written at once.
- Neural-network forwards, gradients and floating-point rounding; gradient averaging over ranks is exact division by the number of ranks.
- Tokenizers, chat templates, answer scoring, data loading, logging and configuration classes: prompts, answers and scores enter as parameters.
- The KL term of the policy loss, which is normalised per mini-batch, and the sequence-mean modes without a global count.
- The metrics of the correction and of the queue, apart from the effective sample size and the failures they cause.
- The single-round rollout path without dynamic sampling, which only expands the reference answers of one round.
- The asynchronous trainer's thread handshake and the checkpoint format of the trainer without worker groups.
- Whitening of advantages and the estimators other than GAE, REINFORCE++ and leave-one-out.
- `utils/seqlen_balancing`, the attention kernel and the worker-side `prune_checkpoints` are not part of this model; the kernel is taken to compute causal attention and its log-sum-exp on a packed sequence, and the worker prunes the same directories as the controller.
- Dispatch.DispatchAndCall: models the routing of a batch with a rank mapping; lazily cached dispatch and the modes without a mapping are single calls of split.
- Checkpoint.CheckpointStore.Save: deletion succeeds in the uninterrupted method, because a failing deletion is only modelled as a step of the machine that damages a directory.
- MessageQueue.AsyncMessageQueue.GetBatch: time is the list of polls; what other threads do is given per poll, and the full interleavings are those of the state machine.
- MessageQueue.StaleRatio, MessageQueue.StaleRatioIff: the bound is stated with `Times`, the product written as repeated addition, which `Arith.TimesIsProduct` equates with the product.
- DynamicSampling.RolloutCollector.CollectFiltered: the engine is taken to return the same ragged columns every round and log-probs either always or never, as its configuration fixes them; decoding the responses is left out.
- Chunker.DynamicMiniBatches: mini-batches cut by a token budget have tensor columns only, because the code does not hand ragged columns to the mini-batches; the order of equal lengths is whatever the sort returned.
- RolloutCorrection.RejectionMask: criteria and thresholds arrive parsed; splitting the option string and reading numbers from it are left out.
- LossMaskCodec.DeserializeSerialize: reading accepts ASCII digits, one sign, surrounding white space and single underscores between digits; digits of other scripts are left out.
- RolloutAssembly.FillBlock: has the log-prob matrix of the single-process path, one column even at width one; the worker-group path has none there.
- Eagle3.CachedAttnMatmul: a masked score is minus infinity rather than the lowest number of its type, so a padding row that sees no key is not described.
- Eagle3.CachedAttnFlash: states the output at real tokens, because padding rows differ between the two paths and are masked out later.
- Advantages.Rloo: a group of one sample divides by zero in floating point and is left out.
