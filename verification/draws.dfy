/** The process-local random generator, made an explicit input.

    The engine calls the generator in a fixed order; the p-th call (counting
    from the cursor a simulation starts at) reads position p of the source.
    A Gaussian call reads a standard normal deviate and a `randint(1, 4)` call
    reads an overtime count. The distributions themselves are not modelled:
    any pair of streams is a possible source. */
module Draws {

  /** What `random.randint(1, 4)` can return. */
  type OvertimeDraw = k: int | 1 <= k <= 4 witness 1

  datatype Source = Source(normal: nat -> real, periods: nat -> OvertimeDraw)

  /** `random.gauss(mu, sigma)`: the generator computes mu + z * sigma from a
      standard normal deviate z, here the one at position `at`. */
  function Gauss(src: Source, at: nat, mu: real, sigma: real): real
  {
    mu + src.normal(at) * sigma
  }

  /** A draw is its mean moved by the deviate in units of sigma: the deviate
      is recovered by standardising, and a zero deviate gives the mean. */
  lemma GaussStandardises(src: Source, at: nat, mu: real, sigma: real)
    ensures src.normal(at) == 0.0 ==> Gauss(src, at, mu, sigma) == mu
    ensures 0.0 < sigma ==> (Gauss(src, at, mu, sigma) - mu) / sigma == src.normal(at)
  {
  }
}
