/**
 * An abstract, deterministic model of `java.util.Random`: the generator is a
 * fixed stream of draws indexed by position, and each call to `nextDouble`
 * or `nextGaussian` reads the draw at the current position and advances it
 * by one. The LCG that produces the stream from a seed is a parameter.
 */
module RandomSource {

  /** `uniform(i)` is the i-th draw of `nextDouble`, `gaussian(i)` of `nextGaussian`. */
  datatype Stream = Stream(uniform: nat -> real, gaussian: nat -> real)

  /** `nextDouble` always lies in [0, 1). */
  ghost predicate WellFormed(s: Stream)
  {
    forall i: nat :: 0.0 <= s.uniform(i) < 1.0
  }

  class Random {
    var stream: Stream
    var pos: nat

    /** `new Random()`: the stream is derived from entropy the model does not see. */
    constructor (entropy: Stream)
      ensures stream == entropy && pos == 0
    {
      stream := entropy;
      pos := 0;
    }

    /** `setSeed(seed)`: the stream becomes the one the seed determines. */
    method SetSeed(seed: int, seeding: int -> Stream)
      modifies this
      ensures stream == seeding(seed) && pos == 0
    {
      stream := seeding(seed);
      pos := 0;
    }

    method NextDouble() returns (u: real)
      modifies this
      ensures u == old(stream.uniform(pos))
      ensures stream == old(stream) && pos == old(pos) + 1
    {
      u := stream.uniform(pos);
      pos := pos + 1;
    }

    method NextGaussian() returns (g: real)
      modifies this
      ensures g == old(stream.gaussian(pos))
      ensures stream == old(stream) && pos == old(pos) + 1
    {
      g := stream.gaussian(pos);
      pos := pos + 1;
    }
  }
}
