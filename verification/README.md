# Spatial-broadcast VAE: training-loop, latent-traversal and data-preparation logic

A Dafny model of the sequential logic in the monet repository's
spatial-broadcast VAE and in its unet data pipeline. The TensorFlow graph
around that logic is not modelled:

- **Run length of `VAE.__init__`** (`VaeTraining.RunLength`): the iteration
  budget `n_run` is `iterations` if that key is present, otherwise
  `epochs` as it stands. If both are missing, the uncaught `KeyError` for
  `epochs` is the result.
- **`VAE.train` as a state machine** (`VaeTraining`): the session and the
  data iterator become a sequence of pull outcomes. `Step(loss)` stands
  for one optimisation step and `Exhausted` for `OutOfRangeError`. The
  loop state is the epoch counter, the current epoch's losses and the log
  of checkpoint pairs written. Each pair is named by its tag, `Epoch(n)` or
  `Final`. `Run` folds `Advance` over the pulls, and `Train` runs
  `range(n_run)` iterations and then writes the final pair.
- **The perturbation batch of `VAE.evaluate`** (`LatentTraversal`): a
  method with the source's nested loops. The outer loop runs over
  dimensions and the inner loop over offsets. The result is checked
  against a declarative description of the traversal. Sequences are values
  here, so each entry is a fresh copy, as `copy.copy` makes it, and building
  the batch cannot change the base vector.
- **The unet `DataPipeline` constructor** (`DataPipeline`): images and
  labels are shuffled by one permutation, then truncated with Python's
  slice rules, and then `n_run` is derived with floor division. Every
  `KeyError`, `IndexError` and `ZeroDivisionError` raised from
  `load_data.py` line 24 on becomes an `Err` value; the loading before
  that is not modelled.
- **Python semantics** (`PySemantics`): exceptions as a `Result`, the
  length of `range(n)`, the stop index of a `[0:stop]` slice, and floor
  division `//`. **Index arrays** (`Permutations`): `np.arange`, fancy
  indexing, and the fact that indexing by a permutation rearranges a
  sequence.

Randomness is an input. The base latent vector of `evaluate` and the
shuffled index array of the pipeline are supplied by the caller. Losses
are an opaque type parameter.

The two run-length rules differ, and each is modelled as written:

- `build_graph.py` line 37 takes `epochs` itself as the iteration count.
- `load_data.py` line 48 multiplies `epochs` by `count // batch_size`.
- Both files accept `iterations` and `epochs` together, and `iterations`
  wins. `Scenarios.RunLengthsCompared` states how the two rules relate.

## Model

| member | source | states |
|---|---|---|
| `VaeTraining.RunLength` | source/spatial_broadcast/build_graph.py:34-37 | `n_run` is `iterations` when present, else `epochs` unmultiplied; with both missing the result is `KeyError('epochs')` |
| `VaeTraining.Initial` | source/spatial_broadcast/build_graph.py:90 | the loop starts at epoch 1 with no losses and no saves, which is what the reference counts give for an empty history: 1 + boundaries, the step losses, and the schedule for 0 boundaries |
| `VaeTraining.Run` | source/spatial_broadcast/build_graph.py:91-113 | the loop body folded over the observed pulls: the counter is at least 1, completed epochs plus current-epoch losses never exceed the iterations, and one intermediate pair is written per ten completed epochs; `EpochCounts`, `EpochLossSinceBoundary` and `SavesFollowSchedule` state its exact result |
| `VaeTraining.Advance` | source/spatial_broadcast/build_graph.py:92-113 | a step appends its loss and changes nothing else; an exhaustion bumps the counter by one, clears the loss list, and logs `Epoch(counter)` iff the counter is a multiple of 10 |
| `VaeTraining.IterationAccounting` | source/spatial_broadcast/build_graph.py:91-98 | every iteration is a step or a boundary: the number of step losses plus the number of boundaries equals the number of iterations |
| `VaeTraining.EpochCounts` | source/spatial_broadcast/build_graph.py:90-112 | after any run of the loop the epoch counter is 1 plus the number of exhaustion signals seen |
| `VaeTraining.EpochLossSinceBoundary` | source/spatial_broadcast/build_graph.py:90-113 | the epoch loss list is exactly the losses of the steps since the last boundary (or the start); it is empty right after a boundary |
| `VaeTraining.SavesFollowSchedule` | source/spatial_broadcast/build_graph.py:102-112 | the intermediate saves are exactly `Epoch(10), Epoch(20), …` up to the boundary count, in order |
| `VaeTraining.ScheduleMembers` | source/spatial_broadcast/build_graph.py:102-108 | a pair tagged `n` is scheduled iff `n` is a multiple of 10 between 1 and the boundary count; `Final` is never an intermediate tag |
| `VaeTraining.Train` | source/spatial_broadcast/build_graph.py:90-121 | over `range(n_run)` iterations: final counter = 1 + boundaries, save log = the ten-epoch schedule followed by `Final`, steps + boundaries = iterations |
| `VaeTraining.SaveLog` | source/spatial_broadcast/build_graph.py:102-120 | the save log ends in the only `Final`; all earlier tags are epoch tags, strictly increasing, and `Epoch(n)` appears iff `n` is a multiple of 10 reached by the boundary count |
| `LatentTraversal.Perturb` | source/spatial_broadcast/build_graph.py:155-156 | a perturbed copy has the base's length, the offset added at the target coordinate, and every other coordinate equal to the base |
| `LatentTraversal.BuildPerturbations` | source/spatial_broadcast/build_graph.py:151-157 | with `latent_play >= 1`, an empty offset grid raises `ValueError` (from `np.nditer`) and otherwise `latent_play` above the latent dimension raises `IndexError`; no other input fails; on success `max(latent_play, 0) · G` entries for a grid of `G` offsets, entry `k` perturbing dimension `k / G` by offset `k % G` |
| `LatentTraversal.TraversalEntry` | source/spatial_broadcast/build_graph.py:153-157 | for a grid of `G` offsets, entry `i·G + j` exists and equals the base with offset `j` added at coordinate `i` (outer loop dimension, inner loop offset) |
| `LatentTraversal.OnlyTargetChanges` | source/spatial_broadcast/build_graph.py:155-156 | every entry equals the base except at its target coordinate, where it is the base plus its offset |
| `LatentTraversal.TwoByFive` | source/spatial_broadcast/build_graph.py:153-157 | two dimensions and five offsets give ten entries, dimension 0 with offsets 0..4 first, then dimension 1 |
| `Permutations.Arange` | source/unet/load_data.py:24 | `np.arange(n)` has `n` entries and entry `i` is `i` |
| `Permutations.Gather` | source/unet/load_data.py:28-29 | fancy indexing `s[idx]` has one entry per index, entry `k` being `s[idx[k]]` |
| `Permutations.PermutationBounds` | source/unet/load_data.py:24-27 | a shuffled `arange(n)` has length `n`, holds only indices below `n`, and holds every index below `n` |
| `Permutations.GatherPreservesMultiset` | source/unet/load_data.py:24-29 | indexing by a shuffled `arange(n)` yields a rearrangement of the sequence: the same multiset |
| `DataPipeline.Shuffle` | source/unet/load_data.py:24-29 | images and labels are reordered by the same index array, so position `k` of both comes from `idx[k]`; `IndexError` iff there are fewer labels than images |
| `DataPipeline.ShufflePreservesPairs` | source/unet/load_data.py:24-29 | the shuffled (image, label) pairs are the original pairs rearranged: same multiset |
| `DataPipeline.Truncate` | source/unet/load_data.py:31-35 | the kept images and labels are prefixes of equal length, the `[0:load]` slice length |
| `DataPipeline.RunLength` | source/unet/load_data.py:44-48 | `iterations` when present; else `KeyError('epochs')` if absent, `ZeroDivisionError` for batch size 0, or `epochs * (count // batch_size)` with floor division |
| `DataPipeline.Prepare` | source/unet/load_data.py:24-48 | errors in source order (labels `IndexError`, `load`, `batch_size`, run length); on success the first `min(load, N)` (Python slice) shuffled pairs with their source positions, the batch size and `n_run` |
| `DataPipeline.KeptPairsAreOriginal` | source/unet/load_data.py:24-35 | the kept pairs are at most `N` and form a sub-multiset of the original pairs |
| `DataPipeline.IterationsOverrideEpochs` | source/unet/load_data.py:45-46 | with `iterations` present, changing or removing `epochs` leaves `n_run` unchanged |
| `PySemantics.Lookup` | source/unet/load_data.py:31 | `training_params[key]` succeeds iff the key is present, giving its value, and otherwise raises `KeyError(key)`; the same subscript is used at `load_data.py` lines 39, 46 and 48 and `build_graph.py` lines 35 and 37 |
| `PySemantics.FloorDiv` | source/unet/load_data.py:48 | `//` rounds toward negative infinity: the remainder has the divisor's sign and is smaller than it in magnitude |
| `PySemantics.SliceStop` | source/unet/load_data.py:34-35 | `[0:stop]` keeps `stop` elements clamped to the length; a negative stop counts from the end, and is clamped at 0 |
| `PySemantics.RangeLength` | source/spatial_broadcast/build_graph.py:91 | `range(n)` runs `n` times, and never for negative `n` |
| `Scenarios.RunLengthsCompared` | source/unet/load_data.py:44-48 | the unet and VAE budgets agree when `iterations` is given; otherwise, for a non-zero batch size the unet budget is the VAE's `epochs` times `count // batch_size`; for batch size 0 the unet rule raises `ZeroDivisionError` while the VAE rule returns `epochs`; a missing `epochs` gives `KeyError('epochs')` in both |
| `Scenarios.HundredImagesOneEpoch` | source/unet/load_data.py:31-48 | `load=100`, `batch_size=10`, `epochs=1` over at least 100 labelled images keeps 100 pairs and gives `n_run = 10` |
| `Scenarios.TenStepsOneFinalSave` | source/spatial_broadcast/build_graph.py:90-121 | ten iterations that all see steps leave the counter at 1, keep all ten losses in the epoch's list, and write only the `final` pair |

## Left out

- The TensorFlow graph is not modelled: encoder, split, sampler, decoder, cross-entropy, KL term and Adam (`build_graph.py` 52-71, 123-129). It is floating-point numerics built by library calls, and `network`/`misc` are not part of this model.
- The `lr` lookup on `build_graph.py` line 31 is left out. It runs before the run-length lookup, so a missing `lr` raises `KeyError('lr')` first, but its value belongs to the optimiser.
- Session, GPU and thread configuration (`build_graph.py` 75-83, 134-142) is resource plumbing and is left out.
- Checkpoint file contents are not modelled: saving and restoring with `tf.train.Saver`, and the directory join. A write is recorded only by its tag. The restore at `evaluate` line 145 and the decoder forward pass with sigmoid (160-163) are left out.
- The per-epoch print of the mean loss (line 100) is left out. It involves float averaging, including `np.mean` of an empty list. Losses are opaque.
- Exceptions from the training step other than `OutOfRangeError` are not modelled. They abort `train` without a final save, and pulls are only `Step` or `Exhausted`.
- `VaeTraining.Train` requires at least `n_run` pull outcomes. The real data source never runs dry of outcomes: it always yields a batch or signals exhaustion.
- `np.random.normal` (line 148) and `np.random.shuffle` (`load_data.py` 27) are inputs. The shuffle's output is any permutation of `0..N-1`.
- File loading with its bare-`except` fallback, `expand_dims`, dtype casts and prints (`load_data.py` 9-22) are I/O and shape plumbing, and are left out.
- Params are integers: `int(...)` conversion of non-integer values, with its truncation and `ValueError`, is not modelled. Neither is a non-integer `batch_size`, which `load_data.py` line 39 stores without `int()`; with a float batch size, `//` would make `n_run` a float.
- The `tf.data` pipeline (`load_data.py` 50-59) is library behaviour and is left out. In particular, a non-positive `batch_size` is accepted by `DataPipeline.Prepare` here, and TensorFlow's own rejection of it is not modelled.
- LatentTraversal.Perturb: latent entries and offsets are Dafny reals standing for NumPy `float64` values (`np.random.normal` at `build_graph.py` line 148, the `linspace` grid), and the rounding of `tmp[0, i] += j` (line 156) is not modelled; the addition is exact.
- The mode dispatch in `VAE.__init__` (23-50) and the `np.squeeze` of the batch (line 158) concern tensor shapes and graph wiring, and are left out.
