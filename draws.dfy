/** The seeded random stream, seen from outside.  After `random.seed(seed)`
    every generator makes a fixed sequence of calls (`randint`, `choice`,
    `uniform`); the model receives the outcomes of those calls, one entry
    per call and in call order, as `draws`.  Which outcomes a given seed
    yields is the generator algorithm's business and is not modelled; the
    ranges each call can return are stated with InRange. */
module Draws {

  /** `len(range(n))`: a negative count gives an empty range. */
  function RangeLen(n: int): (k: nat)
    ensures n >= 0 ==> k == n
    ensures n < 0 ==> k == 0
  {
    if n > 0 then n else 0
  }

  /** The `count` calls starting at position `from` were made, and each
      returned a value in [lo, hi] (`randint(lo, hi)` includes both ends). */
  predicate InRange(draws: seq<int>, from: nat, count: nat, lo: int, hi: int)
  {
    from + count <= |draws| && forall i :: from <= i < from + count ==> lo <= draws[i] <= hi
  }

  /** `random.choice(options)`, given the index the stream picked. */
  function Choice<T>(options: seq<T>, pick: int): (r: T)
    requires 0 <= pick < |options|
    ensures r in options
  {
    options[pick]
  }
}
