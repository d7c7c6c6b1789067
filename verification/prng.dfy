/**
 * The pseudo-random number generators the options code draws from, seen only
 * through what it relies on: a seeded generator is a stream of numbers in
 * [0, 1), one per call, deterministic for a given algorithm and seed.
 */
module Prng {

  /** A number in [0, 1): the range of every value a generator returns. */
  type UnitInterval = r: real | 0.0 <= r < 1.0

  /** The successive draws of one generator instance: `s(i)` is the value of its (i+1)-th call. */
  type Stream = nat -> UnitInterval

  /** The two generator algorithms of the seedrandom library that ganache-core's `getDefault` selects between. */
  datatype Algorithm =
    | Arc4  // seedrandom's default generator, kept so that older seeds keep their streams
    | Alea  // the faster generator used for freshly made seeds

  /**
   * The generator library: seeding `alg` with a seed string gives a fresh
   * stream. Being a function, equal (algorithm, seed) pairs give equal streams.
   */
  type Seeder = (Algorithm, string) -> Stream

  /** A stream whose first draws are `draws` (and 0 after them). */
  function StreamOf(draws: seq<UnitInterval>): (s: Stream)
    ensures forall i :: 0 <= i < |draws| ==> s(i) == draws[i]
  {
    (i: nat) => if i < |draws| then draws[i] else 0.0
  }

  /**
   * `(x * k) | 0` for a draw `x`: truncation toward zero, which on the
   * non-negative product is its integer part, always below `k`.
   */
  function Scale(x: UnitInterval, k: nat): (n: nat)
    requires 0 < k
    ensures n < k
    ensures n as real <= x * k as real < n as real + 1.0
  {
    var p := x * k as real;
    assert p < k as real by {
      var d := 1.0 - x;
      var kr := k as real;
      assert kr - p == d * kr;
      assert d > 0.0 && kr > 0.0;
      assert d * kr > 0.0;
    }
    p.Floor
  }
}
