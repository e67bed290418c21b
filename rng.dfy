/**
 * Python's `random` module as the game uses it: `random.randint(a, b)`.
 * Randomness is an oracle: the generator is a fixed stream of raw values
 * and a position; the k-th call to `randint(a, b)` returns the k-th raw
 * value reduced into `[a, b]`, so every value of the range is possible.
 */
module Random {

  class Rng {
    /** The raw values the generator will produce, in order. */
    const stream: nat -> int
    /**
     * The number of redraws a rejection loop is followed for. The source
     * loops without bound; past this many redraws the model reports the
     * loop as still running.
     */
    const redrawLimit: nat
    /** How many values have been drawn so far. */
    var pos: nat

    constructor (stream: nat -> int, redrawLimit: nat)
      ensures this.stream == stream && this.redrawLimit == redrawLimit
      ensures pos == 0
    {
      this.stream := stream;
      this.redrawLimit := redrawLimit;
      pos := 0;
    }

    /** The value `randint(a, b)` returns when it is the k-th draw. */
    function At(k: nat, a: int, b: int): (r: int)
      requires a <= b
      ensures a <= r <= b
    {
      a + stream(k) % (b - a + 1)
    }

    /** `random.randint(a, b)`: a value in `[a, b]` (an empty range raises). */
    method RandInt(a: int, b: int) returns (r: int)
      requires a <= b
      modifies this
      ensures r == At(old(pos), a, b) && pos == old(pos) + 1
      ensures a <= r <= b
    {
      r := At(pos, a, b);
      pos := pos + 1;
    }
  }
}
