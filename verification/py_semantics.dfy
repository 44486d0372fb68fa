/**
  The few pieces of Python semantics the modelled code leans on: the
  exceptions it lets escape, dictionary lookup that raises `KeyError`,
  the iteration count of `range(n)`, the stop index of a slice `s[0:stop]`,
  and floor division `//`.
 */
module PySemantics {

  /** The exceptions the modelled code raises and does not catch. */
  datatype Error = KeyError(key: string) | IndexError | ValueError | ZeroDivisionError

  /** Either the value a Python expression produces or the exception it raises. */
  datatype Result<+T> = Ok(value: T) | Err(error: Error) {

    predicate IsFailure() {
      Err?
    }

    function PropagateFailure<U>(): Result<U>
      requires Err?
    {
      Err(error)
    }

    function Extract(): T
      requires Ok?
    {
      value
    }
  }

  /**
    A `training_params` dictionary with integer-valued entries.
   */
  type Params = map<string, int>

  /** `params[key]`: the stored value, or `KeyError(key)` when it is absent. */
  function Lookup(params: Params, key: string): (r: Result<int>)
    ensures r.Ok? <==> key in params
    ensures r.Ok? ==> r.value == params[key]
    ensures r.Err? ==> r.error == KeyError(key)
  {
    if key in params then Ok(params[key]) else Err(KeyError(key))
  }

  /** How many times the body of `for _ in range(n)` runs: none for a negative `n`. */
  function RangeLength(n: int): (r: nat)
    ensures n >= 0 ==> r == n
    ensures n < 0 ==> r == 0
  {
    if n < 0 then 0 else n
  }

  /**
    The number of elements `s[0:stop]` keeps from a sequence of length `n`.
    A non-negative stop is clamped to `n`; a negative stop counts from the
    end, so `s[0:-1]` drops the last element.
   */
  function SliceStop(stop: int, n: nat): (r: nat)
    ensures r <= n
    ensures 0 <= stop <= n ==> r == stop
    ensures stop >= n ==> r == n
    ensures stop < 0 ==> r + (-stop) == n || (r == 0 && -stop >= n)
  {
    if stop >= 0 then (if stop <= n then stop else n)
    else if n + stop >= 0 then n + stop
    else 0
  }

  /**
    Python's `a // b`, which rounds toward negative infinity. Dafny's `/`
    is Euclidean and agrees with it only for a positive divisor.
    The remainder `a - b * q` has the sign of `b` and is smaller than `b`
    in magnitude.
   */
  function FloorDiv(a: int, b: int): (q: int)
    requires b != 0
    ensures b > 0 ==> b * q <= a < b * q + b
    ensures b < 0 ==> b * q + b < a <= b * q
  {
    if b > 0 then a / b else (-a) / (-b)
  }
}
