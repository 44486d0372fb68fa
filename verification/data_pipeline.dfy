/**
  The preparation done by the unet `DataPipeline` constructor: shuffle the
  images and labels together, keep the first `load` of them, and derive the
  number of training iterations from `iterations` or from `epochs` and the
  batch size.

  The random shuffle is replaced by the permutation it produced, supplied
  by the caller. Loading the arrays from disk and building the `tf.data`
  iterator are not modelled.
 */
module DataPipeline {
  import opened PySemantics
  import opened Permutations

  /** Images and their labels, held side by side. */
  datatype Arrays<I, L> = Arrays(images: seq<I>, labels: seq<L>)

  /** What the constructor leaves behind: the kept data, the batch size and the iteration budget. */
  datatype Pipeline<I, L> = Pipeline(data: Arrays<I, L>, batchSize: int, nRun: int)

  /** The (image, label) pairs formed by position, one per image. */
  function Pairs<I, L>(images: seq<I>, labels: seq<L>): (r: seq<(I, L)>)
    requires |images| <= |labels|
    ensures |r| == |images|
  {
    seq(|images|, k requires 0 <= k < |images| => (images[k], labels[k]))
  }

  /**
    `images[idx]` and `labels[idx]` with one index array. The images can
    always be indexed; the labels raise `IndexError` exactly when there are
    fewer labels than images, since the permutation then names a missing
    position. Surplus labels are dropped. Position `k` of both results
    comes from position `idx[k]` of the inputs, so pairs stay together.
   */
  function Shuffle<I, L>(images: seq<I>, labels: seq<L>, idx: seq<nat>): (r: Result<Arrays<I, L>>)
    requires IsPermutation(idx, |images|)
    ensures |idx| == |images| && InBounds(idx, |images|)
    ensures r.Err? <==> |labels| < |images|
    ensures r.Err? ==> r.error == IndexError
    ensures r.Ok? ==> |r.value.images| == |images| && |r.value.labels| == |images|
    ensures r.Ok? ==> forall k | 0 <= k < |images| ::
                        r.value.images[k] == images[idx[k]] && r.value.labels[k] == labels[idx[k]]
  {
    PermutationBounds(idx, |images|);
    assert |labels| < |images| ==> |images| - 1 in idx;
    if exists k | 0 <= k < |idx| :: idx[k] >= |labels| then Err(IndexError)
    else Ok(Arrays(Gather(images, idx), Gather(labels, idx)))
  }

  /** `images[0:load]` and `labels[0:load]`, with Python's clamping of the stop index. */
  function Truncate<I, L>(data: Arrays<I, L>, load: int): (r: Arrays<I, L>)
    requires |data.images| == |data.labels|
    ensures |r.images| == |r.labels| == SliceStop(load, |data.images|)
    ensures r.images <= data.images && r.labels <= data.labels
  {
    var n := SliceStop(load, |data.images|);
    Arrays(data.images[..n], data.labels[..n])
  }

  /**
    The iteration budget `n_run`: `iterations` when present, whatever
    `epochs` says; otherwise `epochs` times the number of whole batches in
    the kept data, by floor division. `epochs` is looked up before the
    division, so a missing `epochs` is reported even when the batch size is 0.
   */
  function RunLength(params: Params, count: nat, batchSize: int): (r: Result<int>)
    ensures "iterations" in params ==> r == Ok(params["iterations"])
    ensures "iterations" !in params && "epochs" !in params ==> r == Err(KeyError("epochs"))
    ensures "iterations" !in params && "epochs" in params && batchSize == 0 ==> r == Err(ZeroDivisionError)
    ensures "iterations" !in params && "epochs" in params && batchSize != 0 ==>
              r == Ok(params["epochs"] * FloorDiv(count, batchSize))
  {
    match Lookup(params, "iterations")
    case Ok(n) => Ok(n)
    case Err(_) =>
      var epochs :- Lookup(params, "epochs");
      if batchSize == 0 then Err(ZeroDivisionError) else Ok(epochs * FloorDiv(count, batchSize))
  }

  /**
    The `DataPipeline` constructor. Exceptions surface in source order: the
    label indexing, then the `load` and `batch_size` lookups, then the run
    length. On success the kept data is the first `load` pairs (clamped) of
    the shuffled data, images and labels of equal length.
   */
  function Prepare<I, L>(images: seq<I>, labels: seq<L>, params: Params, idx: seq<nat>): (r: Result<Pipeline<I, L>>)
    requires IsPermutation(idx, |images|)
    ensures |idx| == |images| && InBounds(idx, |images|)
    ensures |labels| < |images| ==> r == Err(IndexError)
    ensures |labels| >= |images| && "load" !in params ==> r == Err(KeyError("load"))
    ensures |labels| >= |images| && "load" in params && "batch_size" !in params ==> r == Err(KeyError("batch_size"))
    ensures |labels| >= |images| && "load" in params && "batch_size" in params ==>
              var n := SliceStop(params["load"], |images|);
              match RunLength(params, n, params["batch_size"])
              case Err(e) => r == Err(e)
              case Ok(nRun) =>
                && r.Ok?
                && |r.value.data.images| == n
                && |r.value.data.labels| == n
                && (forall k | 0 <= k < n ::
                      r.value.data.images[k] == images[idx[k]] && r.value.data.labels[k] == labels[idx[k]])
                && r.value.batchSize == params["batch_size"]
                && r.value.nRun == nRun
  {
    var shuffled :- Shuffle(images, labels, idx);
    var load :- Lookup(params, "load");
    var kept := Truncate(shuffled, load);
    var batchSize :- Lookup(params, "batch_size");
    var nRun :- RunLength(params, |kept.images|, batchSize);
    Ok(Pipeline(kept, batchSize, nRun))
  }

  /**
    Shuffling keeps every (image, label) pair intact: the shuffled pairs are
    a rearrangement of the original pairs.
   */
  lemma ShufflePreservesPairs<I, L>(images: seq<I>, labels: seq<L>, idx: seq<nat>)
    requires IsPermutation(idx, |images|)
    requires |labels| >= |images|
    ensures Shuffle(images, labels, idx).Ok?
    ensures var s := Shuffle(images, labels, idx).value;
            multiset(Pairs(s.images, s.labels)) == multiset(Pairs(images, labels))
  {
    var s := Shuffle(images, labels, idx).value;
    GatherPreservesMultiset(Pairs(images, labels), idx);
    assert Pairs(s.images, s.labels) == Gather(Pairs(images, labels), idx);
  }

  /**
    The pairs the pipeline keeps are drawn from the original pairs without
    repetition: as a multiset they are contained in the original pairs.
   */
  lemma KeptPairsAreOriginal<I, L>(images: seq<I>, labels: seq<L>, params: Params, idx: seq<nat>)
    requires IsPermutation(idx, |images|)
    requires Prepare(images, labels, params, idx).Ok?
    ensures var d := Prepare(images, labels, params, idx).value.data;
            |d.images| == |d.labels| <= |images| <= |labels|
            && multiset(Pairs(d.images, d.labels)) <= multiset(Pairs(images, labels))
  {
    var d := Prepare(images, labels, params, idx).value.data;
    var s := Shuffle(images, labels, idx).value;
    ShufflePreservesPairs(images, labels, idx);
    var all := Pairs(s.images, s.labels);
    var n := |d.images|;
    assert Pairs(d.images, d.labels) == all[..n];
    assert all == all[..n] + all[n..];
    assert multiset(all) == multiset(all[..n]) + multiset(all[n..]);
  }

  /** With `iterations` present, `epochs` has no influence on the budget, whether changed or removed. */
  lemma IterationsOverrideEpochs(params: Params, count: nat, batchSize: int, epochs: int)
    requires "iterations" in params
    ensures RunLength(params["epochs" := epochs], count, batchSize) == RunLength(params, count, batchSize)
    ensures RunLength(params - {"epochs"}, count, batchSize) == RunLength(params, count, batchSize)
    ensures RunLength(params, count, batchSize).Ok?
  {
  }
}
