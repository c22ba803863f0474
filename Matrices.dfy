/** Shapes of the row-major matrices the pipeline passes around
    (time frames by pitches). */
module Matrices {

  /** `m` has exactly `rows` rows of exactly `cols` entries each. */
  predicate IsMatrix<T>(m: seq<seq<T>>, rows: nat, cols: nat)
  {
    |m| == rows && forall t :: 0 <= t < rows ==> |m[t]| == cols
  }

  /** Row-major flattening, as `flatten()` on a two-dimensional array. */
  function Flatten<T>(m: seq<seq<T>>): seq<T>
  {
    if m == [] then [] else m[0] + Flatten(m[1..])
  }
}
