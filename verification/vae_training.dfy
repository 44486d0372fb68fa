/**
  The training side of the spatial-broadcast VAE: how the constructor picks
  the number of loop iterations, and the bookkeeping of `VAE.train`.

  The session and the data pipeline are replaced by the sequence of pull
  outcomes the loop observes: each iteration either runs one optimisation
  step and yields its loss, or finds the data iterator exhausted. The
  tensors, the optimiser and the checkpoint files themselves are not
  modelled; a checkpoint write is recorded by its tag.
 */
module VaeTraining {
  import opened PySemantics

  /** What one iteration of the loop observes: a step's loss, or `OutOfRangeError`. */
  datatype Pull<L> = Step(loss: L) | Exhausted

  /** The tag of an `encoder_<tag>.ckpt` / `decoder_<tag>.ckpt` pair. */
  datatype Tag = Epoch(n: int) | Final

  /** The loop's state: the epoch counter, the losses of the current epoch, and the checkpoint pairs written so far. */
  datatype TrainState<L> = TrainState(epoch: int, epochLoss: seq<L>, saves: seq<Tag>)

  /** Intermediate checkpoints are written at every epoch boundary whose counter is a multiple of this. */
  const SaveEvery: nat := 10

  /**
    The iteration budget `n_run` read by the constructor in training mode:
    `iterations` when present, otherwise `epochs` as it stands, and a
    `KeyError` for `epochs` when both are missing.
   */
  function RunLength(params: Params): (r: Result<int>)
    ensures "iterations" in params ==> r == Ok(params["iterations"])
    ensures "iterations" !in params && "epochs" in params ==> r == Ok(params["epochs"])
    ensures "iterations" !in params && "epochs" !in params ==> r == Err(KeyError("epochs"))
  {
    match Lookup(params, "iterations")
    case Ok(n) => Ok(n)
    case Err(_) => Lookup(params, "epochs")
  }

  /**
    The state before the first iteration: epoch 1, no losses, nothing saved.
    It already agrees with the reference definitions for an empty history.
   */
  function Initial<L>(): (s: TrainState<L>)
    ensures s.epoch == 1 + Boundaries<L>([])
    ensures s.epochLoss == Losses<L>([])
    ensures s.saves == Schedule(0)
  {
    TrainState(1, [], [])
  }

  /**
    One iteration of the loop. A step appends its loss and touches nothing
    else. An exhaustion re-primes the data source, writes an intermediate
    pair tagged with the counter when the counter is a multiple of ten,
    then bumps the counter and clears the epoch's losses.
   */
  function Advance<L>(s: TrainState<L>, pull: Pull<L>): (t: TrainState<L>)
    ensures pull.Step? ==> t == TrainState(s.epoch, s.epochLoss + [pull.loss], s.saves)
    ensures pull.Exhausted? ==> t.epoch == s.epoch + 1 && t.epochLoss == []
    ensures pull.Exhausted? && s.epoch % SaveEvery == 0 ==> t.saves == s.saves + [Epoch(s.epoch)]
    ensures pull.Exhausted? && s.epoch % SaveEvery != 0 ==> t.saves == s.saves
  {
    match pull
    case Step(l) => s.(epochLoss := s.epochLoss + [l])
    case Exhausted =>
      var saves := if s.epoch % SaveEvery == 0 then s.saves + [Epoch(s.epoch)] else s.saves;
      TrainState(s.epoch + 1, [], saves)
  }

  /**
    The state after the loop has observed `pulls`, one iteration per pull, in
    order. Each completed epoch and each loss of the current epoch used up an
    iteration, and one intermediate pair has been written per ten completed
    epochs. `EpochCounts`, `EpochLossSinceBoundary` and `SavesFollowSchedule`
    pin the state down exactly.
   */
  function Run<L>(pulls: seq<Pull<L>>): (s: TrainState<L>)
    ensures s.epoch >= 1
    ensures (s.epoch - 1) + |s.epochLoss| <= |pulls|
    ensures |s.saves| == (s.epoch - 1) / SaveEvery
    decreases |pulls|
  {
    if |pulls| == 0 then Initial()
    else Advance(Run(pulls[..|pulls| - 1]), pulls[|pulls| - 1])
  }

  /** The losses of the steps among `pulls`, in order. */
  function Losses<L>(pulls: seq<Pull<L>>): seq<L> {
    if |pulls| == 0 then []
    else (if pulls[0].Step? then [pulls[0].loss] else []) + Losses(pulls[1..])
  }

  /** How many exhaustion signals `pulls` contains. */
  function Boundaries<L>(pulls: seq<Pull<L>>): nat {
    if |pulls| == 0 then 0
    else (if pulls[0].Exhausted? then 1 else 0) + Boundaries(pulls[1..])
  }

  /** `pulls` contains no exhaustion signal. */
  predicate NoBoundary<L>(pulls: seq<Pull<L>>) {
    forall k | 0 <= k < |pulls| :: pulls[k].Step?
  }

  /** The intermediate tags that `b` epoch boundaries call for: `Epoch(10), Epoch(20), ...` up to `b`. */
  function Schedule(b: nat): seq<Tag> {
    seq(b / SaveEvery, m => Epoch(SaveEvery * (m + 1)))
  }

  lemma {:induction false} LossesAppend<L>(a: seq<Pull<L>>, b: seq<Pull<L>>)
    ensures Losses(a + b) == Losses(a) + Losses(b)
    ensures Boundaries(a + b) == Boundaries(a) + Boundaries(b)
    decreases |a|
  {
    if |a| > 0 {
      assert (a + b)[1..] == a[1..] + b;
      LossesAppend(a[1..], b);
    } else {
      assert a + b == b;
    }
  }

  /**
    Every iteration is a step or a boundary and never both: the steps
    (one loss each) and the boundaries add up to the iterations run.
   */
  lemma {:induction false} IterationAccounting<L>(pulls: seq<Pull<L>>)
    ensures |Losses(pulls)| + Boundaries(pulls) == |pulls|
    decreases |pulls|
  {
    if |pulls| > 0 {
      IterationAccounting(pulls[1..]);
    }
  }

  /** The epoch counter starts at 1 and grows by exactly one per exhaustion signal. */
  lemma {:induction false} EpochCounts<L>(pulls: seq<Pull<L>>)
    ensures Run(pulls).epoch == 1 + Boundaries(pulls)
    decreases |pulls|
  {
    if |pulls| > 0 {
      var n := |pulls| - 1;
      EpochCounts(pulls[..n]);
      assert pulls == pulls[..n] + [pulls[n]];
      LossesAppend(pulls[..n], [pulls[n]]);
      assert Boundaries([pulls[n]]) == (if pulls[n].Exhausted? then 1 else 0);
    }
  }

  /**
    The epoch's loss list holds exactly the losses of the steps since the
    last boundary (or since the start): if position `k` follows a boundary,
    or is the start, and no boundary comes after it, the list is the losses
    of `pulls[k..]`. With `k == |pulls|` after a boundary, the list is empty.
   */
  lemma {:induction false} EpochLossSinceBoundary<L>(pulls: seq<Pull<L>>, k: nat)
    requires k <= |pulls|
    requires k == 0 || pulls[k - 1].Exhausted?
    requires NoBoundary(pulls[k..])
    ensures Run(pulls).epochLoss == Losses(pulls[k..])
    ensures |Run(pulls).epochLoss| == |pulls| - k
    decreases |pulls|
  {
    IterationAccounting(pulls[k..]);
    if |pulls| == k {
      assert pulls[k..] == [];
    } else {
      var n := |pulls| - 1;
      assert pulls[..n][k..] == pulls[k..n];
      assert NoBoundary(pulls[k..n]) by {
        forall j | 0 <= j < n - k
          ensures pulls[k..n][j].Step?
        {
          assert pulls[k..n][j] == pulls[k..][j];
        }
      }
      EpochLossSinceBoundary(pulls[..n], k);
      assert pulls[k..] == pulls[k..n] + [pulls[n]];
      assert pulls[n] == pulls[k..][n - k];
      LossesAppend(pulls[k..n], [pulls[n]]);
    }
  }

  /** Consecutive boundary counts either call for the same schedule or for one more tag. */
  lemma ScheduleStep(b: nat)
    ensures (b + 1) % SaveEvery == 0 ==> Schedule(b + 1) == Schedule(b) + [Epoch(b + 1)]
    ensures (b + 1) % SaveEvery != 0 ==> Schedule(b + 1) == Schedule(b)
  {
    if (b + 1) % SaveEvery == 0 {
      assert (b + 1) / SaveEvery == b / SaveEvery + 1;
      assert SaveEvery * ((b + 1) / SaveEvery) == b + 1;
    } else {
      assert (b + 1) / SaveEvery == b / SaveEvery;
    }
  }

  /**
    The intermediate checkpoints written by the loop are exactly
    `Epoch(10), Epoch(20), ...`, one per multiple of ten reached by the
    boundary count, in increasing order.
   */
  lemma {:induction false} SavesFollowSchedule<L>(pulls: seq<Pull<L>>)
    ensures Run(pulls).saves == Schedule(Boundaries(pulls))
    decreases |pulls|
  {
    if |pulls| > 0 {
      var n := |pulls| - 1;
      SavesFollowSchedule(pulls[..n]);
      EpochCounts(pulls[..n]);
      assert pulls == pulls[..n] + [pulls[n]];
      LossesAppend(pulls[..n], [pulls[n]]);
      assert Boundaries([pulls[n]]) == (if pulls[n].Exhausted? then 1 else 0);
      ScheduleStep(Boundaries(pulls[..n]));
    }
  }

  /** An intermediate pair tagged `n` is in the schedule for `b` boundaries iff `n` is a multiple of ten between 1 and `b`. */
  lemma ScheduleMembers(b: nat, n: int)
    ensures Epoch(n) in Schedule(b) <==> 1 <= n <= b && n % SaveEvery == 0
    ensures Final !in Schedule(b)
  {
    if 1 <= n <= b && n % SaveEvery == 0 {
      var m := n / SaveEvery - 1;
      assert 0 <= m < b / SaveEvery;
      assert Schedule(b)[m] == Epoch(n);
    }
  }

  /**
    `VAE.train` for the budget `nRun`, observing the pulls in `pulls`: the
    loop body runs `range(nRun)` times, then the `final` pair is written.
    The epoch counter ends one above the number of boundaries, the save log
    is the ten-epoch schedule followed by exactly one `Final`, and steps
    plus boundaries account for every iteration.
   */
  function Train<L>(nRun: int, pulls: seq<Pull<L>>): (s: TrainState<L>)
    requires RangeLength(nRun) <= |pulls|
    ensures s.epoch == 1 + Boundaries(pulls[..RangeLength(nRun)])
    ensures s.saves == Schedule(Boundaries(pulls[..RangeLength(nRun)])) + [Final]
    ensures |Losses(pulls[..RangeLength(nRun)])| + Boundaries(pulls[..RangeLength(nRun)]) == RangeLength(nRun)
  {
    var observed := pulls[..RangeLength(nRun)];
    EpochCounts(observed);
    SavesFollowSchedule(observed);
    IterationAccounting(observed);
    var last := Run(observed);
    last.(saves := last.saves + [Final])
  }

  /**
    The save log of a run: every entry but the last is an intermediate tag,
    the tags increase strictly, an intermediate pair `n` is written iff `n`
    is a multiple of ten reached by the boundary count, and `Final` occurs
    exactly once, at the end.
   */
  lemma SaveLog<L>(nRun: int, pulls: seq<Pull<L>>)
    requires RangeLength(nRun) <= |pulls|
    ensures var saves := Train(nRun, pulls).saves;
      && |saves| >= 1
      && saves[|saves| - 1] == Final
      && multiset(saves)[Final] == 1
      && (forall i | 0 <= i < |saves| - 1 :: saves[i].Epoch?)
      && (forall i, j | 0 <= i < j < |saves| - 1 :: saves[i].n < saves[j].n)
      && (forall n :: Epoch(n) in saves <==>
            1 <= n <= Boundaries(pulls[..RangeLength(nRun)]) && n % SaveEvery == 0)
  {
    var b := Boundaries(pulls[..RangeLength(nRun)]);
    var saves := Train(nRun, pulls).saves;
    assert saves == Schedule(b) + [Final];
    ScheduleMembers(b, 0);
    assert multiset(saves) == multiset(Schedule(b)) + multiset{Final};
    forall n
      ensures Epoch(n) in saves <==> 1 <= n <= b && n % SaveEvery == 0
    {
      ScheduleMembers(b, n);
    }
  }
}
