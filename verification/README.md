# Verification of the SeeAI update runtime

SeeAI compiles training into a fixed instruction plan, and its runtime executes the
plan with fast forms that are meant to equal simple ones. This project models the
parts where that claim is hardest and proves it. Run `dafny verify dfyconfig.toml`
to check everything.

The files follow the repository:

- **Kernels.** `Scalar`, `Parallel`, `KernelPolicy`, `Cells`, `GemmGrid`, `GemmNN`,
  `GemmNT`, `Gemm`, `AttentionShape`, `Attention`, `AttentionKernels`, `Elementwise`,
  `Optimizer`: blocked, packed, banded, lane-split, tiled and fused loops against plain
  folds. A float is a term of a free algebra (`Scalar.F`, and `Scalar.D` for doubles):
  two results are equal only if they were computed by the same operations in the same
  order, so no associativity or commutativity can be used. The identities the code does
  rely on are written into the functions that use them: `x * 1 = x` in
  `Optimizer.Times`, and "adding a product of two masked zeros leaves the sum alone" in
  `Attention.Accumulate`. `ParallelFor` is any order of its chunks or tasks: each loop
  draws its next task number nondeterministically from the set still to do.
- **What the kernels mean.** `Meaning`, `GemmMeaning`, `AttentionMeaning`,
  `ElementwiseMeaning`, `OptimizerMeaning`: the same terms valued in the reals, every
  operation exact, and differentiated along any direction of the inputs. This ties the
  folds the fast forms are compared with to the mathematics they are for: matrix products,
  softmax rows, the gradient of attention, clipping, AdamW's moments. A `Sense` is any
  valuation that respects the operations; evaluating terms one by one is one
  (`Meaning.EvaluationIsExact`, `Meaning.EvaluationIsCalculus`).
- **Feeder.** `Rows`, `Corpus`, `Shuffle`, `Serving`, `Dataset` (module `Feeding`),
  `Bytes`, `SdsFile`, `BatchPipeline`: the serving order as a function of two numbers,
  the `.sds` file format, and the two-thread hand-off as program-counter steps.
- **Engine.** `Loss`, `Evaluate`, `Training`, `UpdateEngine`, `Commit`: loss kernels and evaluation passes over the
  reals, whole training runs with crashes and checkpoints, and the commit of merged
  deltas. One optimizer step and one evaluation are uninterpreted functions of the
  persistent segment (and, for the step, of its number, the horizon and the feeder's
  position).
- **Plan and contracts.** `PlanLayout`, `Contract`: assembly and load of the plan blob, and
  the contracts that bound every data-dependent index.
- **Executor and import.** `SlotMemory`, `Rope`: the write-back cache of device tensors
  against the flat arena, and the rotary-embedding weight permutation over the reals.

Six promises turned out to hold only under a condition. Each has its exact condition and
a concrete case where it fails:

- A run resumed from a checkpoint ends as the uninterrupted run would unless the run's
  patience ran out at that very step: the checkpoint does not record it, and the resumed
  process trains on (`Training.ResumeExactly`, `Training.PatienceDiverges`).
- `patience` stops a run after exactly that many stale evaluations only while it fits the
  32-bit counter; a larger value never stops it (`Training.PatienceStops`,
  `Training.PatienceNeverStops`).
- A merge program that fails part-way after an earlier successful merge leaves the merge
  flag set over what it has written, and a commit ships that; in every other case the flag
  is honest (`UpdateEngine.HonestStep`, `UpdateEngine.StaleMerge`).
- An evaluation pass that fails with more than one thread puts the dataset's position back
  while the feeder is still running, and the teardown that follows overwrites it if a batch
  was staged or being filled at that moment (`BatchPipeline.FailingPass`,
  `BatchPipeline.PutBackLost`).
- The label and token bounds cover the step program only where its class-indexed
  instructions are as wide as the bound: the width scans leave that program out
  (`Contract.PlanInsideExactly`, `Contract.NarrowStepProgram`).
- Loading a dataset file allocates no more than the file's payload for the samples, but the
  chunk labelled records are staged through can be larger, up to 256 KiB, when the records
  are few (`SdsFile.StagingFits`, `SdsFile.StagingExceeds`).

## Model

| member | source | states |
|---|---|---|
| `Parallel.ChunkCountBound` | source/parallel/parallel_for.h:55-67 | whatever the size and grain, the chunks cover the range, the last one starts inside it, and there are at most 256, so a fixed table holds one slot a chunk |
| `Parallel.ChunkOwner` | source/parallel/parallel_for.h:55-67 | every index lies in exactly one chunk |
| `KernelPolicy.FitToPanel` | runtime/executor/kernel_policy.h:102-107 | for any valid tiles and any panel of at least 4 floats, the fitted tiles are valid, no larger, and their product fits the panel |
| `GemmGrid.PlanGemmGrid` | runtime/executor/gemm.cc:229-272 | the grid covers C, its task count never exceeds the chunk table, row bands are whole row blocks, and column bands are whole N tiles |
| `GemmGrid.CellInside` | runtime/executor/gemm.cc:274-287 | every task's cell is non-empty and inside C |
| `GemmGrid.ExactCover` | runtime/executor/gemm.cc:274-287 | every element of C lies in exactly one task's cell |
| `GemmNN.PackPanel` | runtime/executor/gemm.cc:73-120 | the packed panel holds the K rows of the B tile, row by row, without leaving its capacity |
| `GemmNN.BlockedNN` | runtime/executor/gemm.cc:73-187 | for every cell, every valid tile pair and panel, each element of the cell is the fold of its old value over whole k-quads aligned at 0 and then single terms, and nothing outside the cell changes |
| `GemmNT.LanesAreFolds` | runtime/executor/gemm.cc:342-380 | lane l of the eight accumulators holds the fold, in order, of the terms whose k is l modulo 8 |
| `GemmNT.Dots` | runtime/executor/gemm.cc:342-425 | four columns at a time or one, each column gets the lane-order dot product of its own |
| `GemmNT.PairDots` | runtime/executor/gemm.cc:427-527 | computing two rows of A together gives each row the dot products it has alone |
| `GemmNT.NtRow` | runtime/executor/gemm.cc:342-425 | a row segment is alpha times the lane-order dots, whatever the column grouping, and nothing else of C changes |
| `GemmNT.BlockedNT` | runtime/executor/gemm.cc:427-527 | row pairing, N tile and band leave no trace: the cell holds the product rows and the rest of C is untouched |
| `Cells.RunPass` | runtime/executor/gemm.cc:289-299 | zeroing, addend and bias or activation passes change exactly their cell, element by element |
| `Gemm.RunGemm` | runtime/executor/gemm.cc:582-622 | GemmNN, GemmTN and GemmAccNN, run over the grid's tasks in any order, leave in every element the content their operands define, fused epilogue or addend included |
| `Gemm.FormIsKernels` | runtime/executor/gemm.cc:531-578 | for every activation, with or without bias and addend, the fused expression of an element is the chain of the standalone kernels' stages on the plain fold |
| `Gemm.RunUnfused` | runtime/executor/gemm.cc:531-578 | the plain product followed by the standalone kernels, the add kernel for the addend and for the bias repeated along the rows and then the kernel of the activation, leaves what those stages make of each element of the plain product, and that is the content the fused form defines |
| `Gemm.SameC` | runtime/executor/gemm.cc:531-622 | tiles, panel size, task order and fusion do not show in C: two fused runs and the unfused one end in the same matrix, the plain product with the standalone kernels applied in turn |
| `Gemm.ChunkFits` | runtime/executor/gemm.cc:644-672 | the scaled-row buffer of the int8 form stays within the larger of two rows and 2^18 floats |
| `Gemm.RunGemmNT` | runtime/executor/gemm.cc:595-672 | the NT forms, per-column int8 in row chunks included, equal the same core on the fully scaled A, with the addend added last |
| `GemmMeaning.FoldIsProduct` | runtime/executor/gemm.cc:73-187 | over the reals, an element of the NN, TN and accumulating forms ends as its old value plus alpha times row of A times column of B, column scales included |
| `GemmMeaning.LanesAddUp` | runtime/executor/gemm.cc:342-380 | over the reals, the eight lanes combined are the inner product |
| `GemmMeaning.RowIsProduct` | runtime/executor/gemm.cc:342-425 | over the reals, an element of the NT form is alpha times row of A times row of B |
| `AttentionShape.Shape.SlotInjective` | runtime/executor/attention.cc:31-36 | distinct units of (batch, head, position) own distinct slots of the activations |
| `AttentionShape.Shape.SlotCovered` | runtime/executor/attention.cc:31-36 | every slot is owned by a unit |
| `AttentionShape.Shape.SlotOffset` | runtime/executor/attention.cc:141-143 | a slot of d floats starts where the kernels look for that head of that position |
| `Attention.PrefixRowSum` | runtime/executor/attention.cc:220-236 | summing probability times gradient over the unmasked prefix equals summing the whole row, from the masked-zero law alone |
| `Attention.SoftmaxRow` | runtime/executor/attention.cc:129-171 | max, exponentials, denominator and reciprocal, with masked entries zero, make the probability row |
| `Attention.ForwardTiledUnit` | runtime/executor/attention.cc:371-406 | the tiled forward of one row gives the cached output row, and stats from which its probabilities are recovered exactly |
| `Attention.DQTiledUnit` | runtime/executor/attention.cc:408-446 | dQ of one row recomputed from its stats equals dQ from the stored P, dP and dS, and the row sum left in the stats is theirs |
| `Attention.DKTiledUnit` | runtime/executor/attention.cc:448-474 | dK of one row recomputed from stats equals the fold over the stored dS column |
| `Attention.DVTiledUnit` | runtime/executor/attention.cc:476-498 | dV of one row recomputed from stats equals the fold over the stored P column |
| `AttentionKernels.AttnFwd` | runtime/executor/attention.cc:129-171 | units in any order fill O and P with the wanted rows |
| `AttentionKernels.AttnDP` | runtime/executor/attention.cc:173-197 | units in any order fill dP |
| `AttentionKernels.SoftmaxRowsBwd` | runtime/executor/attention.cc:220-236 | rows in any order turn P and dP into dS |
| `AttentionKernels.AttnDQ` | runtime/executor/attention.cc:238-257 | units in any order fold dS into dQ |
| `AttentionKernels.AttnDK` | runtime/executor/attention.cc:259-277 | units in any order fold dS columns into dK |
| `AttentionKernels.AttnDV` | runtime/executor/attention.cc:199-218 | units in any order fold P columns into dV |
| `AttentionKernels.AttnFwdTiled` | runtime/executor/attention.cc:371-406 | the tiled forward leaves the same O, and one stats row a unit |
| `AttentionKernels.AttnDQTiled` | runtime/executor/attention.cc:408-446 | the tiled dQ pass leaves the same dQ and the row sums the later passes need |
| `AttentionKernels.AttnDKTiled` | runtime/executor/attention.cc:448-474 | the tiled dK pass leaves the same dK |
| `AttentionKernels.AttnDVTiled` | runtime/executor/attention.cc:476-498 | the tiled dV pass leaves the same dV |
| `AttentionKernels.SameAttention` | runtime/executor/attention.cc:129-498 | for every shape and all operands, the cached and the tiled pipelines end with the same O, dQ, dK and dV |
| `AttentionMeaning.ScaleVal` | runtime/executor/attention.cc:132-132 | the score scale is the positive number whose square times d is 1 |
| `AttentionMeaning.ScoreVal` | runtime/executor/attention.cc:144-149 | a score is the inner product of query and key, scaled |
| `AttentionMeaning.MaxIsGreatest` | runtime/executor/attention.cc:140-152 | the running maximum is one of the row's scores and none exceeds it |
| `AttentionMeaning.RowIsDistribution` | runtime/executor/attention.cc:129-171 | every probability of a row is positive up to the diagonal and zero beyond it, and the row sums to 1 |
| `AttentionMeaning.RowIsSoftmax` | runtime/executor/attention.cc:129-171 | each is the exponential of its score over the sum of the row's exponentials: subtracting the maximum does not show |
| `AttentionMeaning.OutputBetween` | runtime/executor/attention.cc:160-170 | an output row is a convex combination of value rows 0..i: whatever bounds these, column by column, bounds it |
| `AttentionMeaning.CachedRowsAreDistributions` | runtime/executor/attention.cc:129-171 | every row of P that the cached forward leaves is such a distribution, for every unit |
| `AttentionMeaning.TiledRowsAreDistributions` | runtime/executor/attention.cc:339-406 | the probabilities recovered from any row of stats that the tiled forward leaves are such a distribution |
| `AttentionMeaning.BackSumsToZero` | runtime/executor/attention.cc:220-236 | every row of dS sums to 0 |
| `AttentionMeaning.BackwardIsGradient` | runtime/executor/attention.cc:173-277 | dQ, dK and dV are the gradient of the output: in whatever direction Q, K and V move, the upstream gradient times the movement of O is the sum of theirs times the movements of Q, K and V |
| `AttentionMeaning.KernelsGiveGradient` | test/tool/frontier_exec_test.py:135-155 | what the forward and backward kernels of either family leave, at every head, is an output and its gradient |
| `Elementwise.Decode` | source/plan/instruction.h:203-232 | the stage bytes of a word decode to that many stages, each with operands of the right size |
| `Elementwise.DecodePacked` | source/plan/instruction.h:195-232 | a word packed from up to four stage codes decodes to exactly the operations, operands and operand orders those codes name, in order |
| `Elementwise.MapKernel` | runtime/executor/elementwise.cc:16-115 | a standalone stage over chunks in any order is the stage at every index |
| `Elementwise.FusedMap` | runtime/executor/elementwise.cc:119-149 | blocked, chunked and in place, the fused kernel leaves at every index the decoded stages applied one after another |
| `Elementwise.UnfusedChain` | runtime/executor/elementwise.cc:66-115 | the same stages run as whole-tensor kernels leave the same values |
| `Elementwise.ReduceRows` | runtime/executor/elementwise.cc:162-187 | column tiles in any order leave the serial column sums |
| `ElementwiseMeaning.StageVal` | runtime/executor/elementwise.cc:16-115 | over the reals, the add stage adds, the multiply and scale stages multiply, on whichever side the running value is, and ReLU keeps what is positive |
| `ElementwiseMeaning.ColumnVal` | runtime/executor/elementwise.cc:162-187 | over the reals, the row reduction leaves the sum of each column |
| `Optimizer.L2Norm` | runtime/executor/optimizer.cc:21-34 | chunks in any order, partials combined in chunk order: the norm is one fixed expression of the gradient |
| `Optimizer.ClipScale` | runtime/executor/optimizer.cc:39-47 | refused exactly for a non-finite norm of a gradient it was asked to clip; otherwise the factor clipping would use |
| `Optimizer.ClipNorm` | runtime/executor/optimizer.cc:51-58 | the gradient is clipped in place, chunks in any order |
| `Optimizer.Step` | runtime/executor/optimizer.cc:64-105 | SGD and AdamW with the clip fused in: every parameter stepped once with its scaled gradient, or nothing changed at all |
| `Optimizer.ClipThenStep` | runtime/executor/optimizer.cc:51-105 | clipping the gradient first and stepping after, as two kernels |
| `Optimizer.FusedClipIsClip` | runtime/executor/optimizer.cc:39-58 | scaling by the fused factor is clipping, at every element, given only x * 1 = x |
| `Optimizer.SameStep` | runtime/executor/optimizer.cc:39-105 | fused and separate clip leave the same parameters when the norm is finite, and the fused step changes nothing when it is not |
| `OptimizerMeaning.NormIsRoot` | runtime/executor/optimizer.cc:21-34 | over the reals, the chunked norm is the non-negative root of the sum of the squares |
| `OptimizerMeaning.ClipShrinks` | runtime/executor/optimizer.cc:39-58 | for every gradient and max_norm > 0, the clipped gradient is a multiple of the old one by a factor in [0, 1], its norm is the lesser of the old norm and max_norm, and it is the vector the fused step uses |
| `OptimizerMeaning.AdamMoves` | runtime/executor/optimizer.cc:84-105 | after any number of steps from zero moments, the bias-corrected moments are means of the gradients and of their squares (within any bounds these have), and the parameter moves by minus the rate times mean over root plus epsilon, the decay applied to the parameter alone |
| `OptimizerMeaning.SgdMoves` | runtime/executor/optimizer.cc:64-82 | the parameter decays by rate times decay and moves against its gradient; the moments stay |
| `Corpus.FromMemory` | runtime/pipeline/dataset.cc:55-82 | an in-memory corpus is admitted exactly when its buffers match its dimensions and a dense label width does not overflow |
| `Corpus.FromTokens` | runtime/pipeline/dataset.cc:33-53 | a token corpus is admitted exactly when it holds records of seq + 1 non-negative ids |
| `Corpus.RecordIsShifted` | runtime/pipeline/dataset.h:23-26 | the label of a token record is its input moved on by one, and input and last label together are the record's seq + 1 stored tokens |
| `Shuffle.FisherYatesPermutes` | runtime/pipeline/dataset.cc:424-431 | the exchanges keep a permutation a permutation |
| `Shuffle.DrawnPermutes` | runtime/pipeline/dataset.cc:424-431 | every epoch's order, a function of origin and epoch alone, is a permutation |
| `Shuffle.Redraw` | runtime/pipeline/dataset.cc:424-431 | the in-place loop draws exactly that permutation and leaves the generator where the next epoch starts |
| `Shuffle.ReferenceDraws` | test/tool/frontier_exec_test.py:124-132 | the generator gives the published stream of its seed |
| `Shuffle.OriginIsNotZero` | runtime/pipeline/dataset.cc:379-384 | no seed folds to the state that means shuffling is off |
| `Shuffle.DrawIsBijection` | runtime/pipeline/dataset.cc:370-375 | the mixing steps can be undone: every 64-bit number is drawn from exactly one state |
| `Shuffle.PickIsRemainder` | runtime/pipeline/dataset.cc:424-431 | the partner of position i is the remainder of the number drawn by i + 1, and every number can be drawn |
| `Shuffle.ShuffleExchanges` | runtime/pipeline/dataset.cc:424-431 | the shuffle exchanges each position, from the last down, with the partner drawn for it |
| `Shuffle.PartnersDecide` | runtime/pipeline/dataset.cc:424-431 | different lists of partners give different permutations |
| `Shuffle.PartnersReach` | runtime/pipeline/dataset.cc:424-431 | every permutation is reached by a list of partners, so none is favoured by the exchanges |
| `Serving.Feed.AdvanceClosed` | runtime/pipeline/dataset.cc:405-422 | r records on, the cursor is (cursor + r) mod n and the epoch has moved by (cursor + r) div n |
| `Serving.Feed.ServedSplits` | runtime/pipeline/dataset.cc:302-363 | serving r records and then s more delivers what serving r + s delivers |
| `Serving.Feed.EpochServesEach` | runtime/pipeline/dataset.h:28-31 | an epoch served from its beginning serves every record exactly once |
| `Serving.RunJoins` | runtime/pipeline/dataset.cc:331-348 | a sequential run that does not wrap is one contiguous stretch of the stores, and continues what was served before it |
| `Feeding.Dataset.EnableShuffle` | runtime/pipeline/dataset.cc:379-389 | serving starts at the first permutation of the folded seed |
| `Feeding.Dataset.Reshuffle` | runtime/pipeline/dataset.cc:424-431 | order and generator state move on to the next epoch of the same origin |
| `Feeding.Dataset.RestoreServingPos` | runtime/pipeline/dataset.cc:391-405 | cursor, epoch, order and generator state are those of the two given numbers, whatever was served in between |
| `Feeding.Dataset.SkipServed` | runtime/pipeline/dataset.cc:407-422 | refused exactly when the rows are not whole records; otherwise the position of a fresh dataset that served those rows |
| `Feeding.Dataset.FillRecords` | runtime/pipeline/dataset.cc:304-362 | token and shuffled serving put the next records, in order, at the front of the slots, across epochs |
| `Feeding.Dataset.FillRuns` | runtime/pipeline/dataset.cc:331-348 | copying whole runs up to the wrap serves what one record at a time would |
| `Feeding.Dataset.FillBatch` | runtime/pipeline/dataset.cc:302-363 | exactly the next records of the feed are served, input and label, and the rest of the slots is untouched; of a token corpus, at every place of the slots, label word t is input word t + 1 and the input words with the last label word are the stored tokens of the record due there |
| `Feeding.SamePosition` | runtime/pipeline/dataset.h:106-120 | two datasets with one feed at one cursor and epoch agree on the order and on the generator |
| `Feeding.ExtentDecides` | runtime/pipeline/dataset.cc:203-242 | the cached least and greatest id answer every class-count question as a full scan would |
| `Feeding.Dataset.ValidateClassLabels` | runtime/pipeline/dataset.cc:203-242 | accepted exactly when every class id lies below the count; otherwise the first offender is reported, and the cache stays true |
| `Feeding.Dataset.SplitValidation` | runtime/pipeline/dataset.cc:433-478 | the tail records move whole to a new dataset: the integer part of the share, at least one and not all; records are unchanged and both label caches start over |
| `BatchPipeline.FeederKeeps` | runtime/pipeline/batch_pipeline.cc:40-59 | every feeder step keeps mutual exclusion, buffer ownership, the serial batch order and the absence of lost wake-ups |
| `BatchPipeline.EngineKeeps` | runtime/pipeline/batch_pipeline.cc:61-79 | every engine step, NextBatch's and the destructor's, keeps them too |
| `BatchPipeline.SpuriousKeeps` | runtime/pipeline/batch_pipeline.cc:44-66 | a condition variable that wakes for no reason breaks nothing |
| `BatchPipeline.Exclusive` | runtime/pipeline/batch_pipeline.cc:40-79 | the staging buffer is never filled while it is copied, and the destructor touches the dataset only after the feeder is done |
| `BatchPipeline.NotStuck` | runtime/pipeline/batch_pipeline.cc:21-79 | until a run is over, some thread can move |
| `BatchPipeline.StepDecreases` | runtime/pipeline/batch_pipeline.cc:21-79 | every step but a spurious wake-up lowers a lexicographic measure |
| `BatchPipeline.RunThreads` | runtime/pipeline/batch_pipeline.cc:9-79 | every interleaving ends; the k-th NextBatch returned the k-th serial batch and the dataset stands after exactly the batches taken |
| `BatchPipeline.ServeSerially` | runtime/pipeline/batch_pipeline.cc:61-65 | with one thread the engine's slots show those same batches and the dataset ends at that same position |
| `BatchPipeline.TearDown` | runtime/pipeline/batch_pipeline.cc:20-38 | from a position put back while the feeder still runs, in any order of the threads, the pipeline comes down and leaves the dataset at one destination: the staged or half-staged batch's start if there is one, the position put back otherwise |
| `BatchPipeline.FailingPass` | runtime/dispatcher/update_engine.cc:684-687 | a pass that fails with the feeder anywhere: the position put back is still there at the end if and only if no batch was staged or being filled when it was put back, or that batch starts there; otherwise the dataset is left after the batches taken |
| `BatchPipeline.PutBackLost` | runtime/dispatcher/update_engine.cc:684-687 | a concrete schedule that loses it: one batch taken, the next one begun, then the put-back |
| `Bytes.DecodeEncode` | runtime/pipeline/dataset.h:46-49 | little-endian words are read back as written |
| `Bytes.LittleEndian` | runtime/pipeline/dataset.h:46-49 | the least significant byte comes first |
| `SdsFile.HeadRoundTrip` | runtime/pipeline/dataset.cc:252-260 | header fields are read back as written |
| `SdsFile.SaveToFile` | runtime/pipeline/dataset.cc:244-300 | the file is the header and the records, whatever the staging chunk |
| `SdsFile.WriteRecords` | runtime/pipeline/dataset.cc:269-292 | bounded chunks of whole records, interleaved, add up to the record stream |
| `SdsFile.ReadRecords` | runtime/pipeline/dataset.cc:180-199 | bounded chunks, deinterleaved in place, fill the stores with the records' parts |
| `SdsFile.CheckSizes` | runtime/pipeline/dataset.cc:132-165 | accepted exactly when the sample section fits the file and the address space; a product that overflows is refused |
| `SdsFile.PayloadDecides` | runtime/pipeline/dataset.cc:180-199 | a header and a sample section belong to one corpus only |
| `SdsFile.LoadFromFile` | runtime/pipeline/dataset.cc:84-201 | accepted exactly when the file parses, as the corpus it parses as; accepted or not, the stores never exceed the file's payload, and the staging chunk stays within 256 KiB or the stores |
| `SdsFile.StagingFits` | runtime/pipeline/dataset.cc:180-187 | the staging chunk is within the sample section exactly when the section has at least a chunk of records |
| `SdsFile.SaveThenLoad` | runtime/pipeline/dataset.cc:84-300 | every corpus the host can hold is loaded as it was saved |
| `Loss.SoftmaxXEntFwd` | runtime/executor/loss.cc:35-59 | chunks of rows in any order leave every row's probabilities and, over the reals, the mean of the rows' losses, where a NaN probability reaches the logarithm and an underflow is clamped |
| `Loss.MseFwd` | runtime/executor/loss.cc:74-89 | chunks of elements in any order: over the reals, the mean of the squared differences |
| `Loss.RealXent` | runtime/dispatcher/update_engine.cc:1082-1095 | recomputed from the probabilities and the staged labels, the first real rows' losses add up as the cross-entropy kernel sums them |
| `Loss.ClampedLoss` | runtime/executor/loss.cc:47-54 | a NaN probability reaches the logarithm as it is, one below 1e-12 as 1e-12, any other as itself |
| `Loss.RealMse` | runtime/dispatcher/update_engine.cc:1097-1107 | the same for the squared error, over the real rows' elements |
| `Loss.CountHits` | runtime/dispatcher/update_engine.cc:713-738 | the real rows whose label is the first greatest probability |
| `Loss.ArgMaxIsFirst` | runtime/dispatcher/update_engine.cc:726-732 | the column the scan keeps is the first of the greatest, when no probability is NaN |
| `Evaluate.RealRowLoss` | runtime/dispatcher/update_engine.cc:1075-1117 | for a lone cross-entropy or squared error, the real rows' share of the very summands the batch's loss is the mean of; for a composite loss, that mean once a row |
| `Evaluate.BatchesCover` | runtime/dispatcher/update_engine.cc:662-667 | the batches of a pass cover the set and none is without a real sample, also when one batch is larger than the set |
| `Evaluate.FinalLoss` | runtime/dispatcher/update_engine.cc:741-745 | ragged or not, the reported loss is the mean over the real rows' summands; for a composite loss, the batch means weighted by real rows |
| `Evaluate.EvaluateMetrics` | runtime/dispatcher/update_engine.cc:617-752 | each record is scored exactly once in the current order; loss and accuracy are those of what these records stage, over real rows alone; the dataset is left where it was, unless a batch fails with the feeder ahead of it |
| `Evaluate.LossIsMean` | runtime/dispatcher/update_engine.cc:668-700 | where the program judges records on their own, the loss is the mean of the records' own summands, whatever the batch size, the serving order, the epoch and the wrapped tail |
| `Evaluate.MeasuresOnce` | runtime/dispatcher/update_engine.cc:741-751 | a pass from one position has one result |
| `Evaluate.EvaluateTwice` | runtime/dispatcher/update_engine.cc:632-642 | two passes over one set score the same and agree, unless the first fails with the feeder ahead |
| `Training.LessOrder` | runtime/dispatcher/update_engine.cc:1007-1016 | the loss comparison is irreflexive and transitive with NaN, so "no score seen is below the best" survives a new best |
| `Training.LoadSave` | runtime/dispatcher/update_engine.cc:1242-1302 | a checkpoint gives back the state it was taken from exactly when a best of the current step is the current segment |
| `Training.StepKeepsRun` | runtime/dispatcher/update_engine.cc:944-1033 | every iteration keeps the horizon, the binding, the feeder position as a function of the step, and that property of the best |
| `Training.TrainTakesSteps` | runtime/dispatcher/update_engine.cc:818-828 | a call that ends by itself has taken the steps asked for: its count, else what the checkpoint's horizon leaves, else the plan's default; with none of them it is refused |
| `Training.AutoInterval` | runtime/dispatcher/update_engine.cc:850-858 | the automatic evaluation interval is a tenth of the horizon, never zero |
| `Training.CheckpointIsRecent` | runtime/dispatcher/update_engine.cc:1018-1029 | at any iteration of a run, what is on disk is from the last multiple of the checkpoint interval |
| `Training.ResumeElsewhere` | runtime/dispatcher/update_engine.cc:775-799 | a checkpoint of one job offered to another is refused, with nothing trained, whenever the effective shuffle origin, the number of training records or the number of validation records differ, and trained on from whenever all three agree |
| `Training.RestartStands` | runtime/dispatcher/update_engine.cc:775-934 | a process restarted from an in-loop checkpoint and asked for the rest of the run begins its loop exactly where the lost process stood, whether the run trains the whole of its schedule or the head of a longer one |
| `Training.RestartGoesOn` | docs/runtime.md:62-62 | restarted with no step count it trains to the end of the schedule, beyond the lost run's own end if that was the head of a longer one |
| `Training.CrashAndResume` | runtime/dispatcher/update_engine.cc:775-1071 | crash at any iteration after an in-loop checkpoint and resume for the rest of the run: segment, best, scores and position are the uninterrupted run's, also when the best payload was omitted |
| `Training.LastCheckpoint` | runtime/dispatcher/update_engine.cc:1018-1029 | what is on disk in a run is what the last checkpointing iteration wrote |
| `Training.CrashAnywhere` | runtime/dispatcher/update_engine.cc:775-1071 | the same for a process that dies at any iteration with a checkpoint on disk, unless its patience ran out when that was written |
| `Training.ResumeExactly` | runtime/dispatcher/update_engine.cc:1007-1033 | that holds if and only if patience had not run out at the checkpointed step, or the resumed run is cancelled at once |
| `Training.PatienceDiverges` | runtime/dispatcher/update_engine.cc:1007-1033 | a concrete run, stopped by patience at its checkpoint, whose resumption trains on |
| `Training.RepeatedCrashes` | runtime/dispatcher/update_engine.cc:775-1071 | any number of crashes and resumptions, at any checkpoints, end where the run left alone ends |
| `Training.BestInRun` | runtime/dispatcher/update_engine.cc:889-1017 | at every iteration of a tracked fresh run the recorded best is the score of the stored state, no score seen lies below it, and it is the arena's own state when its step is the current one |
| `Training.BestIsLeast` | runtime/dispatcher/update_engine.cc:1007-1016 | a best that is a number is the least of the scores seen that are numbers, and none was minus infinity |
| `Training.TrackedRun` | runtime/dispatcher/update_engine.cc:860-1071 | the run ends with its best state in the arena, its final score that state's, not above the source model's nor any score taken, as floats compare and, where they are numbers, as numbers |
| `Training.StaleCounts` | runtime/dispatcher/update_engine.cc:1007-1016 | the counter is the number of consecutive stale evaluations modulo 2^32 |
| `Training.PatienceStops` | runtime/dispatcher/update_engine.cc:1007-1033 | a run stops for patience exactly at that many consecutive stale evaluations if patience fits 32 bits, and never otherwise |
| `Training.PatienceNeverStops` | runtime/dispatcher/update_engine.cc:1007-1033 | a concrete run with a patience of 2^32 that has seen 2^32 stale evaluations in a row and goes on |
| `UpdateEngine.UpdateEngine.SaveCheckpoint` | runtime/dispatcher/update_engine.cc:1242-1267 | the record holds the whole state, the best payload only when it differs from the segment |
| `UpdateEngine.UpdateEngine.LoadCheckpoint` | runtime/dispatcher/update_engine.cc:1269-1302 | all or nothing, and a loaded state un-merges the engine |
| `UpdateEngine.UpdateEngine.StepLoop` | runtime/dispatcher/update_engine.cc:944-1034 | one pass of the loop body, micro-batches fed by the dataset, is one step of the run |
| `UpdateEngine.UpdateEngine.TakeBaseline` | runtime/dispatcher/update_engine.cc:863-912 | the scores a run starts from: the source model's, and the bar to beat |
| `UpdateEngine.UpdateEngine.TakeFinal` | runtime/dispatcher/update_engine.cc:1043-1071 | the closing evaluation, and the best state put back |
| `UpdateEngine.UpdateEngine.TrainImpl` | runtime/dispatcher/update_engine.cc:766-1073 | the imperative training call, with checkpoint resume and feeder replay, is the run the lemmas are about; it leaves state and dataset where that run ends, clears the merge flag when it trains and never touches the deltas; a checkpoint bound to another origin or split is loaded and then refused with the dataset untouched |
| `UpdateEngine.UpdateEngine.ExecuteTrainOnce` | runtime/dispatcher/update_engine.cc:588-603 | a lone train execution un-merges the engine |
| `UpdateEngine.UpdateEngine.RunMerge` | runtime/dispatcher/update_engine.cc:1128-1159 | merged exactly when the plan is intact, the program runs and every delta is finite, and then the deltas held are the merge of the current segment; the flag stays honest unless a re-merge fails part-way and leaves other deltas |
| `UpdateEngine.HonestStep` | runtime/dispatcher/update_engine.cc:930-934 | for every public call, whether it keeps "merged means the deltas are those of the current segment", exactly |
| `UpdateEngine.HonestThroughout` | compiler/driver/update_compiler.cc:562-571 | over every sequence of calls without a merge that fails part-way, that holds at every point |
| `UpdateEngine.UpdateEngine.CommitToModel` | runtime/dispatcher/update_engine.cc:1174-1240 | refused without a merge, for a file whose hash is not the bound one, and when an entry leaves the file; from an honest engine the result is source plus the merge of the current segment |
| `UpdateEngine.Session` | runtime/dispatcher/update_engine.cc:1128-1240 | any sequence of training, loading, evaluating, merging and committing calls: as long as no merge fails part-way, every commit that succeeds writes source plus the merge of the segment the engine then holds |
| `UpdateEngine.StaleMerge` | runtime/dispatcher/update_engine.cc:1128-1159 | a concrete engine that merges, then fails part-way through a second merge, and commits the deltas left behind |
| `UpdateEngine.RowsAreRecords` | runtime/dispatcher/update_engine.cc:797-814 | the rows replayed for a step count are whole records, the ones those steps consumed |
| `Commit.PatchEntry` | runtime/dispatcher/update_engine.cc:1213-1235 | one entry in chunks of any size: its bytes are source plus delta, all others as before |
| `Commit.PatchModel` | runtime/dispatcher/update_engine.cc:1207-1239 | every entry's range holds source plus delta and every other byte is the source's; refused when an entry leaves the file |
| `Commit.PatchedOnce` | runtime/dispatcher/update_engine.cc:1207-1239 | there is one patched file: neither the chunk size nor the table's order shows |
| `SlotMemory.SlotMemory.Overlapping` | tool/frontier_exec.py:829-836 | one predecessor and a run of successors are exactly the live tensors that overlap a range |
| `SlotMemory.SlotMemory.Evict` | tool/frontier_exec.py:843-849 | afterwards nothing live overlaps the range and no byte outside it is lost |
| `SlotMemory.SlotMemory.Insert` | tool/frontier_exec.py:851-853 | tensors stay disjoint and the start list stays the sorted key list |
| `SlotMemory.SlotMemory.Read` | tool/frontier_exec.py:855-866 | hit or miss, the answer is the flat arena's and the image is unchanged |
| `SlotMemory.SlotMemory.Write` | tool/frontier_exec.py:868-875 | the image changes exactly as the flat arena would |
| `SlotMemory.SlotMemory.Stage` | tool/frontier_exec.py:877-879 | staged host bytes reach the image as they would the flat arena |
| `SlotMemory.SlotMemory.Export` | tool/frontier_exec.py:884-887 | the exported bytes are the flat arena, and everything live stays live |
| `SlotMemory.SlotMemory.Adopt` | tool/frontier_exec.py:889-891 | a new image replaces the old one |
| `SlotMemory.Replay` | tool/frontier_exec.py:788-891 | over every sequence of non-empty calls the cache gives the flat arena's answers |
| `PlanLayout.LayOut` | compiler/driver/update_compiler.cc:822-851 | sections in file order, disjoint, aligned to 64 bytes or a page, with bounded padding |
| `PlanLayout.PiecesOrdered` | compiler/driver/update_compiler.cc:822-907 | for every stream length and every ordered set of packs, the pieces appended never run into each other, so padding never cuts |
| `PlanLayout.Assemble` | compiler/driver/update_compiler.cc:860-907 | every piece stands at its place and every other byte is zero |
| `PlanLayout.WellLaidAccepted` | runtime/dispatcher/contract.cc:35-57 | a plan so laid out passes every section range check |
| `PlanLayout.HeaderRoundTrip` | source/plan/schema.h:211-291 | the section fields and the hash are read back from their words as written |
| `PlanLayout.RefParts` | source/plan/instruction.h:17-42 | a reference is taken apart into the space and the offset it was made of |
| `PlanLayout.Seal` | compiler/driver/update_compiler.cc:909-917 | patching the hash in does not change the hash |
| `PlanLayout.Compile` | compiler/driver/update_compiler.cc:822-917 | the plan holds header, streams, packs, initial image and emit table where the layout says, gaps zero, sealed |
| `PlanLayout.VerifyPlanContract` | runtime/dispatcher/contract.cc:35-129 | accepted exactly when section sizes, ranges, tiles, accumulation, batch, arena and the three slots are consistent |
| `PlanLayout.LoadPlan` | runtime/dispatcher/update_engine.cc:187-250 | accepted exactly when magic, version, seal and the whole plan contract hold; the streams decoded are those bytes |
| `PlanLayout.CompileThenLoad` | compiler/driver/update_compiler.cc:774-917 | assembly and load undo each other for every content and every header the plan contract admits: the same programs and emit table come back |
| `PlanLayout.SplitStep` | compiler/driver/update_compiler.cc:631-657 | the step program starts at the first clip or optimizer opcode, none is left in the gradient program, a stream without one is refused, and the header records accumulation exactly when there is a step program |
| `Contract.VerifyExecutorContract` | runtime/dispatcher/contract.cc:131-203 | accepted exactly when every instruction passes the validator with its program's rights, relaxed arithmetic stays in train and step, every class-indexed kernel reads the staged slot row for row, and every delta is aligned and in the arena |
| `Contract.ScanWidths` | runtime/dispatcher/update_engine.cc:323-353 | the bound is the narrowest non-zero width, zero when there is none |
| `Contract.EmbedWidth` | runtime/dispatcher/update_engine.cc:347-353 | an embedding's bound is the vocabulary packed in the high half of its output word |
| `Contract.ScanForward` | runtime/dispatcher/update_engine.cc:267-280 | accepted exactly when the forward softmaxes agree from the first that has a width |
| `Contract.Initialize` | runtime/dispatcher/update_engine.cc:259-366 | accepted exactly when the executor contract, the width discipline and the token geometry hold; the bounds kept are the narrowest widths, and there is one for every index labels and tokens feed |
| `Contract.VerifyFeederContract` | runtime/dispatcher/contract.cc:209-275 | accepted exactly when the corpus has the plan's geometry and every id lies below the bounds |
| `Contract.ServedBelow` | runtime/pipeline/dataset.cc:302-363 | whatever is served, at any position, every class id is below a bound all of the corpus's ids are below |
| `Contract.StageBatch` | runtime/dispatcher/contract.cc:131-273 | after any batch is staged, every label or token a softmax or embedding reads lies inside that instruction's own width: always in the train, merge and eval programs, and in the step program where it is wide enough |
| `Contract.InsideExactly` | runtime/dispatcher/contract.cc:159-199 | an instruction's indices stay inside for every corpus the feeder contract lets in, from every position, if and only if its width is at least the id bound (or beyond any 32-bit id) |
| `Contract.PlanInsideExactly` | runtime/dispatcher/update_engine.cc:323-353 | an accepted plan is safe in all four programs exactly when its step program's class-indexed instructions are that wide |
| `Contract.NarrowStepProgram` | runtime/dispatcher/update_engine.cc:323-353 | an accepted plan whose unscanned step program reads label 5 in a softmax two classes wide |
| `Rope.OrderPermutes` | tool/export_model.py:618-627 | the interleave order uses every feature exactly once |
| `Rope.InterleaveRotates` | tool/export_model.py:618-627 | interleaving turns the rotate-half rotation into the interleaved one |
| `Rope.SameScore` | tool/export_model.py:618-713 | rotated scores are unchanged by the import |
| `Rope.ProjectInterleaved` | tool/export_model.py:696-713 | interleaving columns and biases interleaves what they project |
| `Rope.KvOf` | tool/export_model.py:692-694 | consecutive query heads share a key and value head, as many to each |
| `Rope.ImportKeepsAttention` | tool/export_model.py:692-713 | per-head scores and values of the imported weights are those of the checkpoint's grouped attention |
| `Rope.BackwardIsAdjoint` | runtime/executor/attention.cc:56-106 | RopeBwd is the adjoint of RopeFwd |
| `Rope.BackwardIsInverse` | runtime/executor/attention.cc:56-106 | on true angles each undoes the other |
| `Rope.RopeTable` | runtime/executor/attention.cc:108-127 | every table row holds the recurrence's cos and sin for its position |
| `Rope.FreqIsPower` | tool/export_model.py:789-796 | where the recurrence's step is the root of 1 over the base, frequency c of half is the base to the power -c / half |
| `Rope.Rotate` | runtime/executor/attention.cc:56-106 | units in any order, with the table or without, both directions: each unit is rotated by its own position's angles |

## Left out

- IEEE rounding, libm and FMA contraction: scalars are opaque terms, or reals with exact operations where a property is about values. There division by zero is zero, and overflow and NaN appear only in the losses and the clip guard.
- AttentionMeaning.BackwardIsGradient: derivatives are those the rules of calculus give term by term; that they are limits of quotients is not proved.
- GELU and SiLU: their values are whatever the library gives, one function each, and their backward kernels are not modelled.
- Aliasing of read-only kernel operands: inputs are sequences of rows, only written buffers are arrays.
- Flat addressing in attention and rotation: activations there are arrays of rows, one a unit; the offset of a unit's row is modelled as its slot number.
- AdamW's three buffers: parameter and moments are one array of triples.
- Metal and Accelerate kernels, and the choice of backend.
- Normalisation kernels, and the backward of activations.
- Threads inside ParallelFor: a loop is any serial order of its chunks, which is what its callers rely on.
- Sample payloads: floats, labels and ids are 4-byte words; a label row is a whole number of words in every label kind.
- Feeding.Dataset.SplitValidation: the validation share is the integer part of a real product, not of a rounded double one.
- Wrap-around of 64-bit counters (epochs, steps, cursors), which no run reaches; size products read from files and plans do carry their overflow checks.
- BatchPipeline.RunThreads: the number of spurious wake-ups is finite but arbitrary.
- Evaluate.EvaluateMetrics: batches come from the one-thread feeder (BatchPipeline shows they are the same with two); that the feeder was ahead when a batch failed is a parameter. In the source the put-back then races with the feeder's own writes to the position; the model takes it as one step between the feeder's steps.
- The loss kernels' softmax of a row and logarithm are uninterpreted; the KL distillation loss is not modelled, and a composite loss is a value the eval program leaves.
- The eval program before its loss is an uninterpreted function of the staged words; that it judges records on their own is the hypothesis of the mean-loss result, `Evaluate.Separable`.
- Loss windows, the loss curve, logging and timings of a training call.
- A failed training step: the run ends there and the segment it leaves is not described.
- Checkpoint files: a record is loaded whole or not at all; versions before the run binding are not modelled.
- EffectiveLr: the schedule is part of the uninterpreted step, which is given the step number and the horizon it depends on.
- Locks, sidecar files, fsync and rename: a commit is one new file or none.
- SlotMemory.SlotMemory.Read: empty tensors are excluded, and a device tensor is its bytes, so a device type narrower than f32 is not covered; the recorder and the frozen weights are not modelled.
- Contract.VerifyExecutorContract: the instruction validator (operand ranges, opcodes, flags by version) is a parameter; the arena's allocation and the backend's acceptance, which follow it, are not modelled.
- The rest of the importer (embedding, MLP and head tensors), the .smf builder, and the reference forward.
- Rope.Rotate: head widths are even, as the importer demands.
- The compiler's passes, arena binding and instruction lowering; the Python feeder, a second statement of the one modelled here; command-line tools.
