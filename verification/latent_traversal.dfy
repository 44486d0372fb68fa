/**
  The perturbation batch `VAE.evaluate` feeds to the decoder: copies of one
  base latent vector, each with one offset added to one coordinate. The
  outer loop runs over the first `latentPlay` coordinates and the inner loop
  over the offsets, so the batch is ordered dimension-major.

  The base vector is an input here (the source draws it from a normal
  distribution), and so is the offset grid. Sequences are values, so every
  entry is a copy and the base itself is never altered.
 */
module LatentTraversal {
  import opened PySemantics

  /** A copy of `base` with `offset` added at coordinate `i`, and every other coordinate as in `base`. */
  function Perturb(base: seq<real>, i: nat, offset: real): (v: seq<real>)
    requires i < |base|
    ensures |v| == |base|
    ensures v[i] == base[i] + offset
    ensures forall c | 0 <= c < |base| && c != i :: v[c] == base[c]
  {
    base[i := base[i] + offset]
  }

  /**
    Entry `k` of `batch` is the base perturbed at coordinate `k / |grid|` by
    offset `grid[k % |grid|]`, for every entry present so far.
   */
  ghost predicate TraversalPrefix(batch: seq<seq<real>>, base: seq<real>, grid: seq<real>) {
    forall k | 0 <= k < |batch| ::
      && |grid| > 0
      && k / |grid| < |base|
      && batch[k] == Perturb(base, k / |grid|, grid[k % |grid|])
  }

  /**
    `batch` is the traversal of the first `dims` coordinates of `base` over
    the offsets `grid`: it has `dims * |grid|` entries, ordered dimension-major.
   */
  ghost predicate IsTraversal(batch: seq<seq<real>>, base: seq<real>, grid: seq<real>, dims: nat) {
    |batch| == dims * |grid| && TraversalPrefix(batch, base, grid)
  }

  /** A positive factor can be cancelled from a strict inequality. */
  lemma MulStrictCancel(d: int, x: int, y: int)
    requires d > 0 && d * x < d * y
    ensures x < y
  {
  }

  /** Position `i * d + j`, with `j < d`, splits back into `i` and `j`. */
  lemma DivModOfSum(i: nat, j: nat, d: nat)
    requires j < d
    ensures (i * d + j) / d == i
    ensures (i * d + j) % d == j
  {
    var a := i * d + j;
    var q, r := a / d, a % d;
    assert a == d * q + r;
    assert d * q <= a < d * (i + 1);
    MulStrictCancel(d, q, i + 1);
    assert d * i <= a < d * (q + 1);
    MulStrictCancel(d, i, q + 1);
  }

  /** Appending the entry for dimension `i` and offset `grid[j]` at position `i * |grid| + j` extends a traversal prefix. */
  lemma AppendEntry(batch: seq<seq<real>>, base: seq<real>, grid: seq<real>, i: nat, j: nat)
    requires TraversalPrefix(batch, base, grid)
    requires i < |base| && j < |grid|
    requires |batch| == i * |grid| + j
    ensures TraversalPrefix(batch + [Perturb(base, i, grid[j])], base, grid)
  {
    DivModOfSum(i, j, |grid|);
  }

  /**
    The nested loop of `VAE.evaluate` as written: for each coordinate `i`
    in `range(latentPlay)` and each offset `j` of the grid, append a copy of
    the base with `j` added at `i`. Once the outer loop runs at all,
    `np.nditer` over an empty grid raises `ValueError` (zero-sized operands
    are not enabled), and otherwise indexing past the end of the latent
    vector raises `IndexError` when `latentPlay` exceeds the latent dimension.
   */
  method BuildPerturbations(base: seq<real>, grid: seq<real>, latentPlay: int)
    returns (r: Result<seq<seq<real>>>)
    ensures r.Err? <==> latentPlay >= 1 && (|grid| == 0 || latentPlay > |base|)
    ensures r.Err? ==> r.error == (if |grid| == 0 then ValueError else IndexError)
    ensures r.Ok? ==> IsTraversal(r.value, base, grid, RangeLength(latentPlay))
  {
    var batch: seq<seq<real>> := [];
    var i := 0;
    while i < latentPlay
      invariant 0 <= i <= RangeLength(latentPlay)
      invariant |grid| == 0 ==> i == 0
      invariant |grid| > 0 ==> i <= |base|
      invariant IsTraversal(batch, base, grid, i)
    {
      if |grid| == 0 {
        return Err(ValueError);
      }
      var j := 0;
      while j < |grid|
        invariant 0 <= j <= |grid|
        invariant j > 0 ==> i < |base|
        invariant |batch| == i * |grid| + j
        invariant TraversalPrefix(batch, base, grid)
      {
        if i >= |base| {
          return Err(IndexError);
        }
        var tmp := base[i := base[i] + grid[j]];
        AppendEntry(batch, base, grid, i, j);
        batch := batch + [tmp];
        j := j + 1;
      }
      assert (i + 1) * |grid| == i * |grid| + |grid|;
      i := i + 1;
    }
    return Ok(batch);
  }

  /**
    Entry `i * |grid| + j` of a traversal is the base with `grid[j]` added
    at coordinate `i`: the outer index is the dimension, the inner the offset.
   */
  lemma TraversalEntry(batch: seq<seq<real>>, base: seq<real>, grid: seq<real>, dims: nat, i: nat, j: nat)
    requires IsTraversal(batch, base, grid, dims)
    requires i < dims && j < |grid|
    ensures i * |grid| + j < |batch|
    ensures i < |base|
    ensures batch[i * |grid| + j] == Perturb(base, i, grid[j])
  {
    assert i * |grid| + j < (i + 1) * |grid| <= dims * |grid|;
    DivModOfSum(i, j, |grid|);
  }

  /**
    Each entry of a traversal agrees with the base everywhere except at its
    target coordinate `k / |grid|`, where it is shifted by its offset.
   */
  lemma OnlyTargetChanges(batch: seq<seq<real>>, base: seq<real>, grid: seq<real>, dims: nat, k: nat, c: nat)
    requires IsTraversal(batch, base, grid, dims)
    requires k < |batch| && c < |base|
    ensures |batch[k]| == |base|
    ensures c != k / |grid| ==> batch[k][c] == base[c]
    ensures c == k / |grid| ==> batch[k][c] == base[c] + grid[k % |grid|]
  {
  }

  /**
    With two dimensions and five offsets the batch has ten entries, ordered
    (dim 0, offset 0), ..., (dim 0, offset 4), (dim 1, offset 0), ..., (dim 1, offset 4).
   */
  lemma TwoByFive(batch: seq<seq<real>>, base: seq<real>, grid: seq<real>)
    requires |base| >= 2 && |grid| == 5
    requires IsTraversal(batch, base, grid, 2)
    ensures |batch| == 10
    ensures forall j | 0 <= j < 5 :: batch[j] == Perturb(base, 0, grid[j])
    ensures forall j | 0 <= j < 5 :: batch[5 + j] == Perturb(base, 1, grid[j])
  {
    forall j | 0 <= j < 5
      ensures batch[j] == Perturb(base, 0, grid[j])
      ensures batch[5 + j] == Perturb(base, 1, grid[j])
    {
      TraversalEntry(batch, base, grid, 2, 0, j);
      TraversalEntry(batch, base, grid, 2, 1, j);
    }
  }
}
