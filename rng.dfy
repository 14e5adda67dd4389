/** The seeded generator `np.random.RandomState(seed)` that the index builder
    threads through its shuffles. The generator's own bit stream is not modelled:
    `Interval` returns some index in range, and `Shuffle` is the Fisher-Yates
    pass numpy runs in place, so all the model relies on is that a shuffle
    permutes the array it is given. */
module Rng {

  class RandomState {
    var state: nat

    constructor (seed: nat)
      ensures state == seed
    {
      state := seed;
    }

    /** A draw in [0, max], as the bounded draw inside numpy's shuffle. */
    method Interval(max: nat) returns (r: nat)
      modifies this
      ensures r <= max
    {
      r := state % (max + 1);
      state := (state * 6364136223846793005 + 1442695040888963407) % 0x1_0000_0000_0000_0000;
    }

    /** `np_rng.shuffle(a)`: an in-place Fisher-Yates shuffle, from the back. */
    method Shuffle<T>(a: array<T>)
      modifies this, a
      ensures multiset(a[..]) == old(multiset(a[..]))
    {
      var i := a.Length;
      while i > 1
        invariant 0 <= i <= a.Length
        invariant multiset(a[..]) == old(multiset(a[..]))
      {
        i := i - 1;
        var j := Interval(i);
        a[i], a[j] := a[j], a[i];
      }
    }
  }
}
