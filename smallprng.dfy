/** Bob Jenkins' small noncryptographic PRNG as a function of its state.
    The generator state is four unsigned 32-bit words; one step mixes them with
    wrapping subtraction and addition, exclusive or, and two fixed left
    rotations.  Everything here is a value; the mutable generator of the
    program is the class in module Rand, which is proved against `Step`. */
module SmallPrng {

  /** The four state words `a, b, c, d`. */
  datatype State = State(a: bv32, b: bv32, c: bv32, d: bv32)

  /** The fixed first word of every freshly seeded state. */
  const SeedWord: bv32 := 0xf1ea5eed

  /** How many steps seeding runs (and discards) before the generator is handed out. */
  const WarmUpSteps: nat := 20

  // ---------------------------------------------------------------------------
  // Word operations.  Each is a named function so that the cancellation lemmas
  // below can be stated about it; the bodies are the 32-bit operations.
  // ---------------------------------------------------------------------------

  /** Bit `i` of `x` (bit 0 is the least significant). */
  predicate Bit(x: bv32, i: bv32)
    requires i < 32
  {
    (x >> i) & 1 == 1
  }

  /** `u32::wrapping_add`: the exact sum, truncated to its low 32 bits. */
  function WrappingAdd(x: bv32, y: bv32): (r: bv32)
    ensures r as bv64 == (x as bv64 + y as bv64) & 0xFFFF_FFFF
  {
    x + y
  }

  /** `u32::wrapping_sub`: the exact difference taken modulo 2^32. */
  function WrappingSub(x: bv32, y: bv32): (r: bv32)
    ensures r as bv64 == (x as bv64 + 0x1_0000_0000 - y as bv64) & 0xFFFF_FFFF
  {
    x - y
  }

  /** The `^` of two words. */
  function Xor(x: bv32, y: bv32): (r: bv32)
    ensures forall i: bv32 :: i < 32 ==> (Bit(r, i) <==> Bit(x, i) != Bit(y, i))
  {
    x ^ y
  }

  /** The rotation `(x << k) | (x >> (32 - k))`.  Both shift amounts must lie
      strictly between 0 and 32, or a shift overflows; the generator only uses
      k = 27 and k = 17.  Bit i of `x` ends up at bit (i + k) mod 32. */
  function Rot(x: bv32, k: bv32): bv32
    requires 0 < k < 32
  {
    (x << k) | (x >> (32 - k))
  }

  /** Rotation moves every bit `k` places up, the top bits wrapping round to the bottom. */
  lemma RotMovesBits(x: bv32, k: bv32)
    requires 0 < k < 32
    ensures forall i: bv32 :: i < 32 ==> (Bit(Rot(x, k), (i + k) % 32) <==> Bit(x, i))
  {
  }

  lemma SubOfAdd(x: bv32, y: bv32)
    ensures WrappingSub(WrappingAdd(x, y), y) == x
  {
    assert WrappingAdd(x, y) == x + y;
    assert WrappingSub(x + y, y) == x;
  }

  lemma AddOfSub(x: bv32, y: bv32)
    ensures WrappingAdd(WrappingSub(x, y), y) == x
  {
    assert WrappingSub(x, y) == x - y;
    assert WrappingAdd(x - y, y) == x;
  }

  lemma XorXor(x: bv32, y: bv32)
    ensures Xor(Xor(x, y), y) == x
  {
    assert Xor(x, y) == x ^ y;
    assert Xor(x ^ y, y) == x;
  }

  /** The two rotations the generator performs are the left rotations of the word. */
  lemma RotAsUsed(x: bv32)
    ensures Rot(x, 27) == x.RotateLeft(27)
    ensures Rot(x, 17) == x.RotateLeft(17)
  {
  }

  // ---------------------------------------------------------------------------
  // One step and its inverse.
  // ---------------------------------------------------------------------------

  /** One step of the generator: e = a - rot(b, 27), then
      a' = b ^ rot(c, 17), b' = c + d, c' = d + e, d' = e + a'.
      The value the step returns is the new `d`. */
  function Step(s: State): State
  {
    var e := WrappingSub(s.a, Rot(s.b, 27));
    var a := Xor(s.b, Rot(s.c, 17));
    State(a, WrappingAdd(s.c, s.d), WrappingAdd(s.d, e), WrappingAdd(e, a))
  }

  /** The state `Step` came from: recover e from d' and a', then d, c, b and a. */
  function Unstep(s: State): State
  {
    var e := WrappingSub(s.d, s.a);
    var d := WrappingSub(s.c, e);
    var c := WrappingSub(s.b, d);
    var b := Xor(s.a, Rot(c, 17));
    State(WrappingAdd(e, Rot(b, 27)), b, c, d)
  }

  lemma UnstepStep(s: State)
    ensures Unstep(Step(s)) == s
  {
    var e := WrappingSub(s.a, Rot(s.b, 27));
    var a := Xor(s.b, Rot(s.c, 17));
    SubOfAdd(e, a);
    SubOfAdd(s.d, e);
    SubOfAdd(s.c, s.d);
    XorXor(s.b, Rot(s.c, 17));
    AddOfSub(s.a, Rot(s.b, 27));
  }

  lemma StepUnstep(s: State)
    ensures Step(Unstep(s)) == s
  {
    var e := WrappingSub(s.d, s.a);
    var d := WrappingSub(s.c, e);
    var c := WrappingSub(s.b, d);
    var b := Xor(s.a, Rot(c, 17));
    SubOfAdd(e, Rot(b, 27));
    XorXor(s.a, Rot(c, 17));
    AddOfSub(s.b, d);
    AddOfSub(s.c, e);
    AddOfSub(s.d, s.a);
  }

  /** Distinct states step to distinct states. */
  lemma StepInjective(s: State, t: State)
    ensures Step(s) == Step(t) <==> s == t
  {
    if Step(s) == Step(t) {
      UnstepStep(s);
      UnstepStep(t);
    }
  }

  // ---------------------------------------------------------------------------
  // Runs of steps, seeding and the output stream.
  // ---------------------------------------------------------------------------

  /** The state after `n` steps from `s`. */
  function Iterate(s: State, n: nat): State
  {
    if n == 0 then s else Step(Iterate(s, n - 1))
  }

  /** The state `n` steps before `s`. */
  function Rewind(s: State, n: nat): State
    decreases n
  {
    if n == 0 then s else Rewind(Unstep(s), n - 1)
  }

  lemma {:induction false} IterateAdd(s: State, m: nat, n: nat)
    ensures Iterate(s, m + n) == Iterate(Iterate(s, m), n)
  {
    if n > 0 {
      IterateAdd(s, m, n - 1);
    }
  }

  lemma {:induction false} RewindIterate(s: State, n: nat)
    ensures Rewind(Iterate(s, n), n) == s
  {
    if n > 0 {
      UnstepStep(Iterate(s, n - 1));
      RewindIterate(s, n - 1);
    }
  }

  /** Runs of the same length from distinct states end in distinct states. */
  lemma IterateInjective(s: State, t: State, n: nat)
    ensures Iterate(s, n) == Iterate(t, n) <==> s == t
  {
    RewindIterate(s, n);
    RewindIterate(t, n);
  }

  /** The state `Rand::new(seed)` starts from, before any step. */
  function Initial(seed: bv32): State
  {
    State(SeedWord, seed, seed, seed)
  }

  /** The state `Rand::new(seed)` hands out: `Initial(seed)` after the warm-up steps. */
  function Seeded(seed: bv32): State
  {
    Iterate(Initial(seed), WarmUpSteps)
  }

  /** Seeding loses nothing: distinct seeds give distinct generators. */
  lemma SeededInjective(x: bv32, y: bv32)
    ensures Seeded(x) == Seeded(y) <==> x == y
  {
    IterateInjective(Initial(x), Initial(y), WarmUpSteps);
  }

  /** The first `n` values `next` returns from state `s`: the i-th is the `d`
      word of the state after i + 1 steps. */
  function Outputs(s: State, n: nat): (r: seq<bv32>)
    ensures |r| == n
    ensures forall i :: 0 <= i < n ==> r[i] == Iterate(s, i + 1).d
  {
    if n == 0 then [] else Outputs(s, n - 1) + [Iterate(s, n).d]
  }

  /** The stream is one stream: the first m + n outputs are the first m
      followed by the first n from where those m left off. */
  lemma {:induction false} OutputsSplit(s: State, m: nat, n: nat)
    ensures Outputs(s, m + n) == Outputs(s, m) + Outputs(Iterate(s, m), n)
  {
    if n > 0 {
      OutputsSplit(s, m, n - 1);
      IterateAdd(s, m, n);
    }
  }
}
