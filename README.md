# Daphne: causally structured continuous normalising flows, in Dafny

Daphne trains a continuous normalising flow (an ODE-based flow, after FFJORD)
to invert a probabilistic model. The flow's dynamics network is wired with
the *faithful inverse* of the model's graph, a randomly drawn graph, or full
connectivity. This project models the Python core of that pipeline and proves
properties of the model. The core is the networks (`nets.py`), the graphical
models and their augmentation (`models.py`), the loss and batching
(`flow.py`), and the experiment driver (`main.py`).

Modules, one file each:

- `Common` (`common.dfy`): vectors, matrices and batches as sequences of
  reals; `Option` and `Result`; sums and means with their linearity lemmas.
- `Adjacency` (`adjacency.dfy`): edges `[a, b]` as `Edge(src, dst)`;
  generated self-loops; what it means for an adjacency list to be in range
  and well formed.
- `Masks` (`masks.dfy`): the weight mask a sparse layer builds from its
  adjacency list. `MaskOf` is the specification. `BuildMask` is the
  imperative loop over a 2-D array, proved against it.
- `Layers` (`layers.dfy`): the concat-squash layer, its masked variant and
  the masked linear layer. The main fact is that a masked layer's output
  does not depend on inputs the mask cuts off.
- `Dynamics` (`dynamics.dfy`): the class `ODEDynamics`, standing for
  `AdaptedODENet` and `SparseODENet`. It has their layer stacks, the
  conditioning buffer, the record list and the `forward` pass. The forward
  pass is proved equal to a row-wise functional specification.
- `OdeNetPlan` (`odenet.dfy`): the layer plan `ODENet.__init__` builds. This
  covers the layer-type tables, stride keyword arguments, the hidden shape
  and the order in which errors are raised.
- `Graphs` (`graphs.dfy`): the built-in models' dimensions and faithful
  adjacency tables. Also the retry loop that draws a random adjacency list
  of the faithful list's length.
- `Augmentation` (`augment.dfy`): `AugmentedModel.__init__` as a method,
  proved equal to a functional specification that is shown to keep
  adjacency lists well formed.
- `Batches` (`batches.dfy`): `create_batch` over a sampler object that
  counts its calls.
- `Loss` (`loss.dfy`): standardisation, the two passes of `compute_loss`,
  the class `FlowArgs` (the `args` namespace) with its `ComputeLoss`
  method, `get_transforms` and the configuration of `create_cnf`.
- `Driver` (`driver.dfy`): the model and connectivity dispatch of `init`,
  the statistics, the learning-rate schedule, the choice of objective, the
  moving symmetric KL and the training loop.

Behaviour of the code that is easy to misread:

- Every layer of `SparseODENet` is masked with the same adjacency list
  (nets.py:128), not only the first. The deeper layers, of width `dims`,
  keep only the latent-to-latent block of that list
  (`Dynamics.DeepMaskIsLatentBlock`).
- The time column appended by the forward pass is never an edge target of a
  well-formed adjacency list, so every sparse layer ignores the appended
  time column (`Dynamics.TimeColumnIsMaskedOut`). The gate and the hyper-bias
  of each layer still take `t` (nets.py:57-58).
- The "reverse pass" of `compute_loss` calls the flow without
  `reverse=True` and with the integration times. The "forward pass" calls it
  with `reverse=True` and no times (flow.py:108-109 and flow.py:131).
- In the linear layer table, `"concatcoord"` maps to the same layer as
  `"concat"` (nets.py:199).
- After augmentation, the faithful and random adjacency lists can differ in
  length, and the faithful list can hold an edge twice
  (`Augmentation.AugmentedListsCanDifferInLength`).
- With `train_steps == 0`, `res` is never bound and the final `return`
  fails. The model returns `Err(NoSteps)`.

## Model

| member | source | states |
|---|---|---|
| Adjacency.SelfLoops | models.py:23 | the generated list has `n` entries, the `i`-th being the self-loop of latent `i` |
| Adjacency.SelfLoopsInRange | models.py:23 | generated self-loops are latent-to-latent edges inside the model's dimensions |
| Adjacency.EndsWithSelfLoopsHasSelfLoops | models.py:17-23 | a table that ends with the generated self-loops holds the self-loop of every latent variable |
| Masks.MaskOf | nets.py:38-41 | the mask is a `dim_out` × `dim_in` matrix |
| Masks.MaskEntry | nets.py:38-41 | mask entry `[a, b]` is 1 exactly when `[a, b]` is in the adjacency list, and 0 otherwise |
| Masks.MaskIgnoresOrderAndDuplicates | nets.py:39-41 | two adjacency lists with the same edges give the same mask, whatever their order or repetitions |
| Masks.InputEdges | nets.py:40 | keeps exactly the edges whose target is below `dim_in` |
| Masks.MaskSkipsOutOfRangeEdges | nets.py:39-41 | edges with target `b >= dim_in` are skipped: the mask equals the mask of the in-range edges |
| Masks.BuildMask | nets.py:38-41 | the array loop leaves 1 at every listed edge, 0 elsewhere, and equals `MaskOf` entry by entry |
| Layers.EffectiveWeight | nets.py:54 | the masked weight is 0 wherever the mask is 0 and the weight itself wherever the mask is 1 |
| Layers.MaskedApply | nets.py:54-55 | the masked affine map has one output per bias entry |
| Layers.Modulate | nets.py:57-58 | gating and hyper-bias keep the width of the affine output |
| Layers.LayerRow | nets.py:24-27 | a concat-squash layer maps a row to `dim_out` outputs |
| Layers.LayerBatch | nets.py:53-58 | a layer maps a batch row by row to rows of width `dim_out` |
| Layers.LinearSparseBatch | nets.py:85-89 | the masked linear layer maps a batch to rows of width `dim_out` |
| Layers.CompileMask | nets.py:38-44 | the mask stored by a sparse layer is a `dim_out` × `dim_in` matrix with 1 exactly at the listed edges |
| Layers.NewSparseSquash | nets.py:31-51 | the constructed layer carries the compiled mask of its adjacency list |
| Layers.NewLinearSparse | nets.py:62-82 | the constructed masked linear layer carries the compiled mask of its adjacency list |
| Layers.DotIgnoresZeroWeight | nets.py:55 | a coordinate with weight 0 does not affect the dot product |
| Layers.MaskedApplyIgnoresMaskedInput | nets.py:54-55 | output `a` of the masked affine map does not depend on input `b` when `[a, b]` is masked out |
| Layers.SparseLayerIgnoresMaskedInput | nets.py:53-58 | changing input `b` of one row changes no sparse-layer output `a` masked off from `b`, and no other row |
| Layers.FullMaskIsDense | nets.py:54-55 | with an all-ones mask, the sparse layer computes the dense affine map |
| Layers.CompiledMaskBlocksNonEdges | nets.py:38-58 | a layer built from an adjacency list ignores input `b` at output `a` whenever `[a, b]` is not listed |
| Dynamics.LayerCount | nets.py:96 | `num_layers` layers, and one layer when `num_layers < 1` (list literal plus an empty range) |
| Dynamics.NetInput | nets.py:106 | the network input has one row per state row |
| Dynamics.Step | nets.py:107-116 | one layer step yields rows of width `dims` |
| Dynamics.Run | nets.py:107-116 | after `n` layers the batch has the input's row count and width `dims` (or the input width when `n = 0`) |
| Dynamics.RunIsRowwise | nets.py:103-120 | row `r` of the forward pass depends only on row `r` of its input |
| Dynamics.TimeColumnIsMaskedOut | nets.py:128 | for a well-formed adjacency list, the first layer's mask is 0 at the time column |
| Dynamics.DeepMaskIsLatentBlock | nets.py:128 | the masks of deeper layers are the latent block of the first layer's mask |
| Dynamics.ApplyLayer | nets.py:108-116 | applying layer `l` in place gives the specification's step `l` |
| Dynamics.RunLayers | nets.py:107-116 | the layer loop computes the specification's run over all layers |
| Dynamics.ODEDynamics.Adapted | nets.py:93-101 | fully connected dynamics: `LayerCount(num_layers)` unmasked layers of the right widths, empty record, not recording |
| Dynamics.ODEDynamics.Sparse | nets.py:125-133 | sparse dynamics: every layer masked with the compiled adjacency mask of its width, empty record, not recording |
| Dynamics.ODEDynamics.BindCondition | main.py:161 | the conditioning buffer becomes the given rows and nothing else changes |
| Dynamics.ODEDynamics.Forward | nets.py:103-120 | the output equals the specification run on `[x, conditioned, t]`; the record grows by one entry exactly when recording |
| OdeNetPlan.FamilyOfName | nets.py:179-200 | a layer family exists exactly for the eight listed layer-type names |
| OdeNetPlan.BaseLayer | nets.py:177-200 | the base layer exists exactly for the listed names and is convolutional exactly when `conv` is set |
| OdeNetPlan.BaseLayerDistinguishesNames | nets.py:191-200 | two names select the same layer exactly when they are equal, or are `concat` and `concatcoord` in the linear table |
| OdeNetPlan.NonlinearityOf | nets.py:159-164 | a nonlinearity exists exactly for `tanh`, `relu`, `softplus` and `elu` |
| OdeNetPlan.Kwargs | nets.py:209-218 | strides `None`, 1, 2 and -2 are accepted and every other stride raises `Unsupported stride` |
| OdeNetPlan.KwargsFollowStride | nets.py:211-216 | keyword arguments exist exactly for a stride; their stride is its magnitude, transposed iff negative, kernel 3 iff stride 1 |
| OdeNetPlan.ShapeStep | nets.py:225-230 | the hidden shape keeps its rank, takes channel `dim_out`, and keeps every axis after the second spatial one |
| OdeNetPlan.DownThenUpRestoresEvenSizes | nets.py:227-230 | stride 2 then stride -2 restores even spatial sizes |
| OdeNetPlan.UpThenDownRestoresSizes | nets.py:227-230 | stride -2 then stride 2 restores every spatial size |
| OdeNetPlan.EffectiveStrides | nets.py:177-190 | without `conv`, every one of the `len(hidden_dims) + 1` strides is `None` |
| OdeNetPlan.ShapeFold | nets.py:205-231 | the hidden shape keeps the input's rank through all layers |
| OdeNetPlan.ShapeFoldWithoutResizing | nets.py:225-231 | with no resizing strides, only the channel changes, to the last planned output |
| OdeNetPlan.PlanStep | nets.py:209-231 | one loop turn fails exactly with the stride or nonlinearity error; otherwise it plans the layer, activation and next shape |
| OdeNetPlan.NewODENet | nets.py:173-234 | succeeds exactly on admissible arguments; errors come in source order; the plan has input widths with `conditional_dims` on the first layer only |
| OdeNetPlan.LinearPlanKeepsShape | nets.py:189-231 | a linear network maps shape `(d,)` back to `(d,)` |
| OdeNetPlan.FfjordBaselineIsAdmissible | main.py:152-155 | the baseline network's arguments are accepted for every latent dimension |
| Graphs.Dimensions | models.py:14-15 | each model's `(dim_latent, dim_condition)` as its constructor sets them: (7, 8) for the Gaussian network, (2, 1) circle, (4, 4) and (10, 10) state space, (1, 1) `Crazy1D` and `BernoulliGMM`, (2, 0) toy data, (6, 2) arithmetic circuit, (17, 5) every bigger graph |
| Graphs.FaithfulTable | models.py:17-23 | exactly the models with an adjacency table have a faithful list |
| Graphs.RandRuleOf | models.py:24-28 | models without tables get no random list, and `Crazy1D` and `BernoulliGMM` get a fixed one; the rest draw with their model's threshold |
| Graphs.GaussianBNEdgesInRange | models.py:17-22 | the Gaussian Bayesian network's edges fit 7 latent and 8 conditioning variables |
| Graphs.GaussianBNWellFormed | models.py:17-23 | its faithful list is in range and holds every latent self-loop |
| Graphs.StateSpaceEdgesInRange | models.py:127-130 | the state-space model's edges fit 4 latent and 4 conditioning variables |
| Graphs.StateSpaceWellFormed | models.py:127-130 | its faithful list is well formed |
| Graphs.StateSpaceLargerBlock1InRange | models.py:189-198 | the first half of the larger state-space table fits 10 + 10 variables |
| Graphs.StateSpaceLargerBlock2InRange | models.py:189-198 | the second half of that table fits 10 + 10 variables |
| Graphs.StateSpaceLargerEdgesInRange | models.py:189-198 | the larger state-space table fits 10 + 10 variables |
| Graphs.StateSpaceLargerWellFormed | models.py:189-198 | its faithful list is well formed |
| Graphs.BiggerGraphBlock1InRange | models.py:378-384 | the first block of the bigger-graph table fits 17 + 5 variables |
| Graphs.BiggerGraphBlock2InRange | models.py:385-390 | the second block fits 17 + 5 variables |
| Graphs.BiggerGraphBlock3InRange | models.py:391-395 | the third block fits 17 + 5 variables |
| Graphs.BiggerGraphEdgesInRange | models.py:378-395 | the bigger-graph table fits 17 + 5 variables |
| Graphs.BiggerGraphWellFormed | models.py:378-395 | its faithful list is well formed |
| Graphs.SimpleArithmeticCircuitEdgesInRange | models.py:922 | the arithmetic circuit's edges fit 6 + 2 variables |
| Graphs.SimpleArithmeticCircuitWellFormed | models.py:922 | its faithful list is well formed |
| Graphs.StaticRandIsFaithful | models.py:266-267 | a fixed random list is the model's faithful list |
| Graphs.FaithfulTablesWellFormed | models.py:12-23 | every built-in faithful list is well formed for its model's dimensions |
| Graphs.Candidates | models.py:26-28 | one attempt's set: the pairs `(i, j)`, `i < dim_latent`, `j < dim_latent + dim_condition`, whose draw exceeds the threshold, plus every latent self-loop; every candidate is in range and every self-loop is one |
| Graphs.CandidateIffDrawExceeds | models.py:26-28 | a non-self-loop edge is a candidate exactly when its uniform draw exceeds the threshold |
| Graphs.SetToList | models.py:26 | `list(set(...))` has the set's size, no duplicates and the same edges |
| Graphs.DrawAttempt | models.py:26-28 | one attempt yields a duplicate-free list, in range, with all self-loops, of exactly the candidate edges |
| Graphs.AllMissed | models.py:25 | attempts `0 .. n - 1` all drew a candidate set whose size is not the target, defined attempt by attempt |
| Graphs.AllMissedIff | models.py:25 | that recursive definition holds exactly when every attempt below `n` missed the target size |
| Graphs.AllMissedExtend | models.py:25-28 | an attempt that misses the target extends the run of misses by one |
| Graphs.FirstHit | models.py:25-28 | attempt `n` has the target size, the list holds exactly its candidates, and every earlier attempt missed |
| Graphs.RandAdjacency | models.py:24-28 | an accepted list has the target length, no duplicates, is in range and holds all self-loops; it lists the candidates of the first attempt of the target size (every earlier one missed); `None` only after all `fuel` attempts missed; target 0 gives `[]` without drawing |
| Graphs.NewGraphModel | models.py:12-28 | a built model satisfies `BuiltAs`: its kind's dimensions and faithful list, and a random list that is absent, the fixed list, or the first drawn attempt of the faithful list's length, with no duplicate and well formed; `None` only for a drawing kind when every attempt missed |
| Augmentation.AugmentSpec | models.py:286-351 | the `AugmentedModel` constructor: the missing-attribute, assertion and index errors in the order it meets them, else `dim_latent + len(to_augment)` with the augmented faithful and random lists |
| Augmentation.ShiftRoundTrip | models.py:298 | shifting conditioning indices past the copies is undone by unshifting, in both directions |
| Augmentation.ShiftTargets | models.py:296-299 | each faithful edge keeps its source and has its conditioning target shifted |
| Augmentation.ShiftBoth | models.py:334-337 | each random edge has both ends shifted |
| Augmentation.LinksIn | models.py:321-322 | one edge per augmented variable into its copy |
| Augmentation.LinksOut | models.py:324-325 | one edge per augmented variable out of its copy |
| Augmentation.EdgesFromOnly | models.py:315-317 | every inherited edge comes from a shifted edge of the copied variable |
| Augmentation.EdgesFromHas | models.py:315-317 | every shifted edge of the copied variable is inherited |
| Augmentation.AugCondOnlyInherited | models.py:312-318 | an augmented-conditioning edge is `[dl + idx, b]` for a shifted edge `[to_augment[idx], b]` |
| Augmentation.AugCondGrows | models.py:313-317 | later iterations keep earlier inherited edges |
| Augmentation.AugCondHasInherited | models.py:312-318 | every shifted edge of an augmented variable is inherited by its copy |
| Augmentation.AugCondIff | models.py:312-318 | the copy `dl + idx` has edge to `y` iff `to_augment[idx]` has it in the shifted list |
| Augmentation.SelfEdgesBeforeOnlyLinked | models.py:327-330 | every self-edge generated so far joins two copies whose originals are linked |
| Augmentation.SelfEdgesBeforeHasLinked | models.py:327-330 | every linked pair already visited has its self-edge |
| Augmentation.SelfEdgeIff | models.py:327-330 | copies `i` and `j` are joined iff `[to_augment[i], to_augment[j]]` is an original edge |
| Augmentation.SelfEdgesJoinCopies | models.py:327-330 | self-edges only join augmented copies |
| Augmentation.CopiesAreLinked | models.py:321-325 | every copy has its in-link and out-link in the augmented faithful list |
| Augmentation.BaseEdgesAreShifted | models.py:296-299 | the augmented lists start with the shifted original lists |
| Augmentation.ShiftedInRange | models.py:296-299 | shifting keeps an in-range list in range for the grown latent dimension |
| Augmentation.ShiftedHasSelfLoops | models.py:296-299 | shifting keeps the original latent self-loops |
| Augmentation.CopiesCompleteSelfLoops | models.py:327-330 | when the augmented variables have self-loops, the copies get theirs |
| Augmentation.InheritedInRange | models.py:312-318 | inherited edges are in range |
| Augmentation.LinksInRange | models.py:321-325 | links to and from copies are in range when the augmented variables are latent |
| Augmentation.SelfEdgesInRange | models.py:327-330 | self-edges are in range |
| Augmentation.FaithfulAugmentationInRange | models.py:294-330 | the augmented faithful list is in range for `dim_latent + len(to_augment)` |
| Augmentation.FaithfulAugmentationWellFormed | models.py:294-330 | augmenting keeps the faithful list well formed |
| Augmentation.RandomAugmentationInRange | models.py:333-351 | the augmented random list is in range |
| Augmentation.RandomAugmentationWellFormed | models.py:333-351 | augmenting keeps the random list well formed |
| Augmentation.AugmentKeepsWellFormed | models.py:286-351 | for well-formed lists and latent indices augmentation succeeds, grows `dim_latent` by `len(to_augment)` and keeps both lists well formed |
| Augmentation.AugmentedListsCanDifferInLength | models.py:312-351 | a concrete model whose augmented faithful and random lists differ in length |
| Augmentation.CheckedMatrix | models.py:301-304 | the dense matrix is built exactly when every edge indexes it, and then it is 1 exactly at the edges |
| Augmentation.SelfEdgesOf | models.py:327-330 | fails exactly on indices outside the matrix, and otherwise returns the specified self-edges |
| Augmentation.ShiftFaithful | models.py:296-299 | fails the assertion exactly when some source is not latent, and otherwise shifts the targets |
| Augmentation.ShiftRandom | models.py:333-337 | the loop shifts both ends of every random edge |
| Augmentation.AppendInherited | models.py:315-317 | the inner loop appends the copied variable's edges re-sourced to the copy |
| Augmentation.InheritEdges | models.py:312-318 | the outer loop builds the specified augmented conditioning |
| Augmentation.Augment | models.py:286-351 | the constructor computes the augmentation specification, including its error cases |
| Batches.Sampler.constructor | flow.py:165 | a fresh sampler has made no calls |
| Batches.Sampler.Sample | flow.py:169 | each call returns the next draw and counts one call |
| Batches.CreateBatchSpec | flow.py:165-178 | `create_batch`: the stacking error for `minibatch_size <= 0` or `repeat_samples <= 0` or ragged draws, else the latent and condition rows of the next `minibatch_size` draws, each repeated `repeat_samples` times |
| Batches.Times | flow.py:168 | `range(m)` runs `m` times, and never for negative `m` |
| Batches.LatentRows | flow.py:166-171 | the latent rows number `minibatch_size * repeat_samples` |
| Batches.ConditionRows | flow.py:167-172 | the condition rows number `minibatch_size * repeat_samples` |
| Batches.RowOfRepetition | flow.py:168-172 | row `k * r + i` of both batches is repetition `i` of draw `k` |
| Batches.BatchShape | flow.py:176-177 | the two shape assertions after stacking always hold |
| Batches.StackableDrawsAgree | flow.py:173-174 | stacked rows of one width mean the draws have one width |
| Batches.AgreeingDrawsStack | flow.py:173-174 | draws of one width stack when there is at least one row |
| Batches.BatchFailsIff | flow.py:165-178 | batching fails exactly when `minibatch_size <= 0`, `repeat_samples <= 0` or two draws differ in width |
| Batches.Repeat | flow.py:170-172 | the inner loop appends `repeat_samples` copies of the draw |
| Batches.CreateBatch | flow.py:165-178 | calls the sampler `minibatch_size` times and returns the specified batch or the stacking error |
| Batches.RepeatedDraw | flow.py:168-172 | one outer iteration extends the rows of the first `k` draws to those of `k + 1` |
| Loss.Standardize | flow.py:94 | standardising keeps the row width |
| Loss.Destandardize | flow.py:119 | de-standardising keeps the row width |
| Loss.DestandardizeStandardize | flow.py:94-119 | de-standardising a standardised row returns it, for non-zero scales |
| Loss.StandardizeDestandardize | flow.py:94-119 | standardising a de-standardised row returns it, for non-zero scales |
| Loss.StandardizeBatch | flow.py:94-96 | a standardised batch keeps its shape |
| Loss.DestandardizeBatch | flow.py:119-120 | a de-standardised batch keeps its shape |
| Loss.BatchRoundTrip | flow.py:94-120 | the batch round trip returns the batch |
| Loss.LogScaleTerm | flow.py:95 | `logp_xscale`: minus the sum of the logs of the scale entries |
| Loss.LogScaleTermAppend | flow.py:95 | each further scale entry subtracts its log from the change-of-variable term |
| Loss.BroadcastLen | flow.py:123 | two lengths broadcast iff equal or one is 1, to the other length |
| Loss.Expand | flow.py:123 | a broadcast operand repeats its only entry or keeps its entries |
| Loss.BAdd | flow.py:123 | element-wise sum after broadcasting, `None` when the lengths do not broadcast |
| Loss.BSub | flow.py:123 | element-wise difference after broadcasting, `None` when the lengths do not broadcast |
| Loss.BroadcastSameLength | flow.py:123-147 | equal-length operands combine element-wise |
| Loss.RowLogDensity | flow.py:101 | the standard normal log density has one value per row |
| Loss.NoiseBatch | flow.py:100 | the base noise has the batch's shape |
| Loss.Zeros | flow.py:130 | the initial log-density column is all zeros, one per row |
| Loss.ReverseTerms | flow.py:119-123 | the per-sample reverse terms `Q - (PI + LAMBDA)`, densities taken at the de-standardised `z`, or the shape error |
| Loss.ForwardTerms | flow.py:139-147 | the per-sample forward terms `(PI_ + LAMBDA_) - Q_`, densities taken at the raw `x`, or the assertion error when a density output is not of length `batch_size` |
| Loss.RegAngle | flow.py:114 | `reg[j][1]` when that entry exists, `None` exactly when `j` or index 1 is out of range |
| Loss.LoggingFails | flow.py:113-115 | the logging after a pass raises exactly when there are two regularisation states and one of them has fewer than two entries |
| Loss.Passes | flow.py:99-156 | the reverse pass, then the forward pass; the IndexError of either logging step, the terms' errors or the empty-mean error stop it; it records the directions set so far and yields the two KL means |
| Loss.LossSpec | flow.py:89-162 | `compute_loss`: the batch error, the shape error when the batch does not match the statistics or the buffer, else the write of `y_` into the buffer followed by the passes |
| Loss.BufferWrittenOnce | flow.py:97-131 | a successful loss writes the standardised conditions into the buffer once and sets the direction to 1.0, then -1.0 |
| Loss.SuccessfulLossLoggedItsStates | flow.py:112-137 | when the loss succeeds, each pass's regularisation list of two states holds at least two entries in both |
| Loss.ForwardAssertionIff | flow.py:144-145 | the shape assertions fail exactly when a prior or likelihood output is not of length `batch_size` |
| Loss.ReverseKlDecomposes | flow.py:119-156 | with equal non-zero lengths, the reverse KL is the mean log-density change plus the log-scale term minus the mean log prior and log likelihood |
| Loss.ForwardKlDecomposes | flow.py:139-155 | with all lengths `batch_size > 0`, the forward KL is the mean log prior plus log likelihood, minus the mean Gaussian log density, plus the mean log-density change, minus the log-scale term |
| Loss.FlowArgs.constructor | main.py:125-161 | the argument namespace holds the given sampler, statistics, times and conditioning rows |
| Loss.FlowArgs.ComputeLoss | flow.py:89-162 | draws one batch, overwrites the conditioning with standardised rows, and returns the specified losses or error; the buffer and direction end as `StateAfter` of the specified outcome |
| Loss.SampleCall | flow.py:74-78 | the sampling transform calls the flow in reverse on `z` and `logpz` without times |
| Loss.DensityCall | flow.py:80-84 | the density transform calls the flow forward on `x` and `logpx` without times |
| Loss.TransformsDifferInDirectionOnly | flow.py:72-86 | the two transforms differ only in direction |
| Loss.SetOptions | flow.py:23-38 | `_set`: a CNF module gets `dopri5` and tolerance `1e-5` for training and testing, an ODE function loses `rademacher` and `residual`, any other module is kept |
| Loss.SetCnfOptions | flow.py:20-40 | configuring keeps the number of modules |
| Loss.SetCnfOptionsEffect | flow.py:23-38 | CNF modules get `dopri5` and tolerance `1e-5` for training and testing; ODE functions lose `rademacher` and `residual`; other settings are untouched |
| Loss.SetCnfOptionsIdempotent | flow.py:20-40 | configuring twice equals configuring once |
| Loss.CreateCnf | flow.py:43-69 | `create_cnf`: the CNF module with `dopri5`, `T = 1.0` trainable, then the ODE function with the `approximate` divergence, then the dynamics' modules, all configured by `set_cnf_options` |
| Loss.CreateCnfSettings | flow.py:43-69 | whatever the library defaults, the flow uses dopri5 at tolerance `1e-5`, `T = 1.0` trainable, the `approximate` divergence without Rademacher noise or residual, and a second configuration changes nothing |
| Driver.IsAutogen | main.py:78 | a model name selects an `autogen` module exactly when it starts with `autogen` |
| Driver.BuiltinModel | main.py:80-112 | the built-in model each name of the `elif` chain selects, `None` for any other name |
| Driver.ModelOfName | main.py:78-115 | the `autogen` test comes first, then the built-in names, then `Model unknown` |
| Driver.BuiltinModelNamesItsModel | main.py:81-112 | every name the dispatch accepts is the name of the model it builds |
| Driver.EveryModelHasItsName | main.py:81-112 | every built-in model is selected by its own name |
| Driver.ModelNamesAreDistinct | main.py:81-112 | two names selecting the same built-in model are equal |
| Driver.ModelOfNameFailsIff | main.py:78-115 | dispatch fails with `Model unknown` exactly when the name neither starts with `autogen` nor is a built-in name |
| Driver.ChosenModel | main.py:117-119 | the model augmented by `to_augment` (with its error) when that list is non-empty, the model itself otherwise |
| Driver.ChosenModelDimensions | main.py:117-123 | augmentation succeeds on well-formed models, grows the latent dimension by `len(to_augment)` and keeps both lists well formed; with nothing to augment the model is kept |
| Driver.ClampScale | main.py:128-129 | the scale has one entry per column |
| Driver.ClampScaleBounds | main.py:125-134 | every scale entry is at least `1e-5` and the standard deviation, and equals the standard deviation when that is at least `1e-5` |
| Driver.ClampScaleIdempotent | main.py:129 | clamping twice equals clamping once |
| Driver.ColumnMeans | main.py:131 | the shift has one entry per column |
| Driver.ColumnMeanOfConstantColumn | main.py:131 | a constant column has that constant as its mean |
| Driver.PrefixSlice | main.py:161 | the slice is no longer than the batch |
| Driver.PrefixSliceLength | main.py:161 | `ys[0:batch_size]` is the prefix when in range, the whole batch when too long, and drops `-batch_size` rows when negative |
| Driver.ConnectivityOf | main.py:138-157 | the network each connectivity name selects, the AttributeError of a missing adjacency, or `Connectivity type unknown` |
| Driver.ConnectivityTable | main.py:138-157 | each connectivity name selects its network and layer count; unknown names raise the connectivity error |
| Driver.WellFormedIsIndexable | main.py:142 | a well-formed adjacency list indexes the first layer's mask |
| Driver.NewModel | main.py:78-115 | the named model is built, or the dispatch error is returned; a built-in model satisfies `Graphs.BuiltAs` for the draws and retry budget of the oracles, and fails only with `RetriesExhausted`, when every attempt missed |
| Driver.ChooseModel | main.py:78-123 | the built model is `NewModel`'s result with the same facts about its random list, and the model used further is its augmentation (or the same failure) |
| Driver.BaselinePlanned | main.py:150-155 | the layers `NewODENet` plans for the baseline's arguments are the four concat-squash layers of `BaselineOf` |
| Driver.NewNet | main.py:138-157 | builds dense, sparse or baseline dynamics of the model's dimensions with `LayerCount(num_layers)` layers (`NetOf`): no mask in any layer of a dense net, the mask `MaskOf` of the net's list at each layer's input width in a sparse one; a sparse net fails exactly when its list does not index the mask; the baseline is `BaselineOf`: four linear concat-squash layers `dl + dc -> 64 -> 64 -> 64 -> dl`, tanh between them, shape back at `(dl,)` |
| Driver.SetupFailure | main.py:117-157 | the first failing step of `init` after the model is built: augmentation, statistics, connectivity, then the first sparse mask |
| Driver.WellFormedModelSetsUp | main.py:117-157 | for a well-formed model augmented at latent indices, with statistics and a known connectivity name, no step fails |
| Driver.Init | main.py:66-166 | fails exactly when the model choice or a later step fails, with that step's error in the order of `SetupFailure`; the built model satisfies `Graphs.BuiltAs`; otherwise builds the statistics, the net of the chosen connectivity (its layer count and every layer's mask stated against that net by `NetOf`) with its buffer bound to the first `batch_size` conditions, and the flow; a baseline plan is `BaselineOf` the chosen model's dimensions |
| Driver.DecayStep | main.py:181-194 | the three independent checks of one step: times 0.1 at `n / 2`, 0.1 at `4n / 5`, 0.5 at `19n / 20` |
| Driver.LrAfter | main.py:180-194 | the rate after the checks of the first `k` steps |
| Driver.Passed | main.py:180-194 | the product of the factors of the thresholds below `k` |
| Driver.LrClosedForm | main.py:180-194 | after `k` steps the rate is `lr` times 1, 0.1, 0.01 or 0.005, by which thresholds have passed |
| Driver.FinalLr | main.py:180-194 | after all steps the rate is `0.005 * lr` |
| Driver.LrNeverIncreases | main.py:180-194 | the rate never increases and stays non-negative |
| Driver.OneStepFiresAllThresholds | main.py:180-194 | with one step, all three decays fire at step 0 |
| Driver.MovingUpdate | main.py:225-228 | the first value is the plain symmetric KL; later ones are the exponential update floored at `1e-5` |
| Driver.MovingOf | main.py:179-229 | `moving_sym_kl` after the steps of a history of KL pairs |
| Driver.MovingUpdateBounds | main.py:225-228 | the first value is the unclamped symmetric KL; later values are at least `1e-5` and at least the exponential update |
| Driver.MovingFloor | main.py:225-228 | from the second step on, the moving value is at least `1e-5` |
| Driver.FirstAverageIsUnclamped | main.py:225-226 | the first value can be below the floor |
| Driver.MovingFixedPoint | main.py:228 | a symmetric KL at the moving value above the floor leaves it unchanged |
| Driver.Objective | main.py:200-218 | the quantity each loss choice back-propagates, the IndexError of a missing regularisation entry, or nothing for an unknown choice |
| Driver.ObjectivesRelate | main.py:200-218 | `sym` is forward plus reverse KL; `sym_reg` and `forw_reg` add the reverse angle and fail together; `reg_only` fails whenever `sym_reg` does |
| Driver.ObjectiveSkipsIff | main.py:200-218 | no objective is built exactly for unknown loss choices |
| Driver.Schedule | main.py:181-194 | one step of the schedule applies the decays whose thresholds equal the step |
| Driver.StepResult | main.py:199-218 | the KL pair of an iteration, or the loss's error, or the objective's IndexError |
| Driver.StepResultFailsIff | main.py:199-218 | a step fails exactly when the loss or its objective fails |
| Driver.CallsAfterIsProduct | main.py:179-197 | after `k` iterations of `batch_size` draws each, the sampler has made `k * batch_size` more calls |
| Driver.LossIteration | main.py:179-197 | one iteration takes the state the first `i` losses leave to the state the first `i + 1` leave |
| Driver.TrainStep | main.py:197-218 | one step draws one batch, returns the specified loss for the chosen objective, and leaves the buffer and direction `compute_loss` leaves (`Loss.StateAfter`) |
| Driver.Train | main.py:179-242 | the loop follows the schedule, keeps the moving KL of the losses seen, returns the last loss and ends at rate `0.005 * lr`; after `started` iterations the sampler has drawn `started` batches and the buffer and direction are those the first `started` losses leave (`LossStateIs`) |

## Left out

- The ODE solver, the CNF's integration, divergence estimation and regularisation states are not modelled. The `lib.layers` package is not part of this model. A call of the flow is an oracle returning the transformed batch, the log-density change and the regularisation states.
- Model densities (`log_prior`, `log_likelihood`), `sample`, and the standard normal noise are oracles given as parameters. `log`, `tanh` and the sigmoid are uninterpreted functions.
- Reals are exact: IEEE floating point, NaN and rounding are not modelled. An empty mean, which is NaN in torch, is the error `EmptyMean`.
- `torch.std` is an oracle. Clamping against `1e-5` and the column means are modelled.
- Width-1 broadcasting of the statistics against a batch is treated as a shape error rather than a broadcast.
- Edges, variable indices and the entries of `to_augment` are natural numbers. Python's negative indices, which count from the end (a `to_augment` of `[-1]` is accepted and, in a weight mask, can select the time column), are not modelled.
- Graphs.RandAdjacency: the retry loop runs for at most `fuel` attempts. `Graphs.NewGraphModel` returns `None` when they run out, where the source would keep drawing.
- Graphs.FaithfulTablesWellFormed: states range and self-loops, not freedom from duplicates, for the static tables.
- `num_squeeze` and `ODENet.forward` are not modelled. Only the layer plan of `ODENet` is, and it serves as the baseline network.
- The optimiser is not modelled: its single parameter group's learning rate is modelled, but gradients, `backward` and the Adam step are not. The CNF and noise at each training step are per-step oracles.
- Logging (`log_scalar`, `print`), checkpoints, artifacts, the device, seeding and the configuration system are not modelled.
- `ToyData` sampling and the `autogen` import are oracles. An `autogen` module that fails to import is the error `AutogenImportFailed`.
- Driver.LrClosedForm: the thresholds `int(0.5 * n)`, `int(0.8 * n)` and `int(0.95 * n)` are modelled as the exact floors `n / 2`, `4n / 5` and `19n / 20`; float rounding is not modelled.
- Loss.LossSpec: writing `y_` into the condition buffer requires equal shapes and otherwise returns `ShapeMismatch`. Torch would broadcast a one-row or one-column `y_` into a larger buffer. `Driver.Init` sizes the buffer as `ys[0:batch_size]`, so the two agree whenever the batch has `batch_size` rows and the buffer is not clipped.
- Loss.FlowArgs.ComputeLoss: inherits `Loss.LossSpec`'s shape error for a buffer write that torch would broadcast.
- Loss.FlowArgs.ComputeLoss: the conditioning rows of `FlowArgs` are a copy of the dynamics' buffer. The aliasing between the two is not modelled.
- Driver.Train: its history of losses is not tied to the loss specification. `Driver.TrainStep` states that for each step. The call count is stated as `CallsAfter`, and `Driver.CallsAfterIsProduct` turns it into the product.
