/** The generator object: four mutable 32-bit words, seeded by a constructor
    and advanced in place by `Next`.  Every method is proved against the state
    functions of module SmallPrng. */
module Rand {
  import opened SmallPrng

  class Rand {
    var a: bv32
    var b: bv32
    var c: bv32
    var d: bv32

    /** The four words as a value. */
    function Words(): State
      reads this
    {
      State(a, b, c, d)
    }

    /** `Rand::new(seed)`: a = 0xf1ea5eed, b = c = d = seed, then twenty steps
        whose outputs are discarded. */
    constructor (seed: bv32)
      ensures Words() == Seeded(seed)
    {
      a, d, c, b := SeedWord, seed, seed, seed;
      new;
      for i := 0 to WarmUpSteps
        invariant Words() == Iterate(Initial(seed), i)
      {
        var _ := Next();
      }
    }

    /** `Rand::next`: overwrite the words one after another, using the
        temporary `e`, and return the new `d`. */
    method Next() returns (v: bv32)
      modifies this
      ensures Words() == Step(old(Words()))
      ensures v == d
    {
      var e := WrappingSub(a, Rot(b, 27));
      a := Xor(b, Rot(c, 17));
      b := WrappingAdd(c, d);
      c := WrappingAdd(d, e);
      d := WrappingAdd(e, a);
      v := d;
    }

    /** The implicit copy of a `Copy` struct: a new generator with the same
        words, which from then on advances independently of this one. */
    method Copy() returns (r: Rand)
      ensures fresh(r)
      ensures r.Words() == Words()
    {
      r := new Rand.FromWords(Words());
    }

    /** A generator holding exactly the given words. */
    constructor FromWords(s: State)
      ensures Words() == s
    {
      a, b, c, d := s.a, s.b, s.c, s.d;
    }
  }

  /** Calls `r.Next()` `n` times and collects the values, in order. */
  method Take(r: Rand, n: nat) returns (xs: seq<bv32>)
    modifies r
    ensures xs == Outputs(old(r.Words()), n)
    ensures r.Words() == Iterate(old(r.Words()), n)
  {
    xs := [];
    for i := 0 to n
      invariant xs == Outputs(old(r.Words()), i)
      invariant r.Words() == Iterate(old(r.Words()), i)
    {
      var v := r.Next();
      xs := xs + [v];
    }
  }
}
