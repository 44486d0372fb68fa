/**
  Facts that tie the two run-length rules and the training loop together,
  and the worked example of 100 images in batches of 10 for one epoch.
 */
module Scenarios {
  import opened PySemantics
  import opened Permutations
  import VaeTraining
  import DataPipeline

  /**
    The two constructors agree when `iterations` is given. Without it, the
    unet pipeline multiplies `epochs` by the whole batches per pass, while
    the VAE takes `epochs` itself as its iteration count; with a batch size
    of 0 the unet rule raises `ZeroDivisionError` where the VAE rule succeeds.
    A missing `epochs` is reported by both.
   */
  lemma RunLengthsCompared(params: Params, count: nat, batchSize: int)
    ensures "iterations" in params ==>
              DataPipeline.RunLength(params, count, batchSize) == VaeTraining.RunLength(params)
    ensures "iterations" !in params && batchSize != 0 ==>
              match VaeTraining.RunLength(params)
              case Ok(e) => DataPipeline.RunLength(params, count, batchSize) == Ok(e * FloorDiv(count, batchSize))
              case Err(err) => DataPipeline.RunLength(params, count, batchSize) == Err(err)
    ensures "iterations" !in params && batchSize == 0 ==>
              if "epochs" in params then
                && DataPipeline.RunLength(params, count, batchSize) == Err(ZeroDivisionError)
                && VaeTraining.RunLength(params) == Ok(params["epochs"])
              else
                DataPipeline.RunLength(params, count, batchSize) == VaeTraining.RunLength(params)
  {
  }

  /**
    At least 100 images with their labels, `load = 100`, `batch_size = 10`
    and `epochs = 1`: the pipeline keeps 100 pairs and budgets 10 iterations.
   */
  lemma HundredImagesOneEpoch<I, L>(images: seq<I>, labels: seq<L>, idx: seq<nat>)
    requires IsPermutation(idx, |images|)
    requires 100 <= |images| <= |labels|
    ensures var r := DataPipeline.Prepare(images, labels, map["load" := 100, "batch_size" := 10, "epochs" := 1], idx);
            r.Ok? && |r.value.data.images| == 100 && |r.value.data.labels| == 100 && r.value.nRun == 10
  {
    var params := map["load" := 100, "batch_size" := 10, "epochs" := 1];
    assert "iterations" !in params;
    assert FloorDiv(100, 10) == 10;
  }

  /**
    A budget of 10 iterations that sees 10 steps, as one pass over 100 images
    in batches of 10 yields, ends before the exhaustion signal: the counter
    stays at 1, all ten losses are in the epoch's list, and the only
    checkpoint pair written is `Final`.
   */
  lemma TenStepsOneFinalSave<L>(pulls: seq<VaeTraining.Pull<L>>)
    requires |pulls| >= 10
    requires VaeTraining.NoBoundary(pulls[..10])
    ensures VaeTraining.Train(10, pulls).epoch == 1
    ensures VaeTraining.Train(10, pulls).saves == [VaeTraining.Final]
    ensures VaeTraining.Train(10, pulls).epochLoss == VaeTraining.Losses(pulls[..10])
    ensures |VaeTraining.Train(10, pulls).epochLoss| == 10
  {
    var observed := pulls[..10];
    VaeTraining.IterationAccounting(observed);
    VaeTraining.EpochLossSinceBoundary(observed, 0);
    assert observed[0..] == observed;
    assert VaeTraining.Boundaries(observed) == 0;
  }
}
