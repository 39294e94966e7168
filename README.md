# rays: the small noncryptographic PRNG

The ray tracer draws all its random numbers from `Rand`, Bob Jenkins' "small
noncryptographic PRNG" (`src/rand.rs`). The generator state is four unsigned
32-bit words `a, b, c, d`. One call of `next` computes

    e  = a - rot(b, 27)
    a' = b ^ rot(c, 17)
    b' = c + d
    c' = d + e
    d' = e + a'

with wrapping (mod 2^32) `+` and `-`, and returns the new `d`. `rot(x, k)` is
`(x << k) | (x >> (32 - k))`. `Rand::new(seed)` sets `a = 0xf1ea5eed` and
`b = c = d = seed`, then calls `next` 20 times and discards the values.

The model has three modules:

- `SmallPrng` (`smallprng.dfy`) is the generator as values. It has the state
  datatype, the word operations (`WrappingAdd`, `WrappingSub`, `Xor`, `Rot`),
  one step `Step`, its inverse `Unstep`, runs of steps `Iterate`, the seeded
  state `Seeded`, and the output stream `Outputs`.
- `Rand` (`rand.dfy`) is the generator object. It is a class with four `bv32`
  fields. The constructor runs the 20 warm-up steps in a loop. `Next`
  overwrites the fields one after another. `Copy` stands for the implicit copy
  of a `Copy` struct. Each of these is proved against `Step`, `Iterate` and
  `Seeded`.
- `RandTests` (`rand_tests.dfy`) holds the source's own known-answer check
  and the guarantees callers rely on. A fixed seed gives a fixed stream, and
  a copy advances independently of its original.

Two facts go beyond the equations themselves:

- One step is a bijection. `Unstep` undoes it, in both orders.
- Distinct seeds therefore give distinct seeded generators.

The known answer (the 100th output after seeding with 42 is 3863832633) is
proved by having the verifier evaluate the 120 steps, 20 at a time.

## Model

| member | source | states |
|---|---|---|
| SmallPrng.WrappingAdd | src/rand.rs:39-41 | `wrapping_add` is the exact sum truncated to its low 32 bits |
| SmallPrng.WrappingSub | src/rand.rs:37 | `wrapping_sub` is the exact difference taken modulo 2^32 |
| SmallPrng.Xor | src/rand.rs:38 | bit i of `x ^ y` is set exactly when bit i of one operand is set and the other's is not |
| SmallPrng.RotMovesBits | src/rand.rs:36 | for 0 < k < 32 (so neither shift overflows), `rot(x, k)` moves bit i of x to bit (i + k) mod 32 |
| SmallPrng.RotAsUsed | src/rand.rs:36-38 | the two rotations `next` performs are left rotations by 27 and by 17 |
| SmallPrng.UnstepStep | src/rand.rs:35-43 | the step of `next` loses no information: `Unstep` recovers the old state from the new one |
| SmallPrng.StepUnstep | src/rand.rs:35-43 | every state is the successor of some state, namely `Unstep` of it |
| SmallPrng.StepInjective | src/rand.rs:35-43 | two states have the same successor if and only if they are equal |
| SmallPrng.IterateAdd | src/rand.rs:19-21 | m steps followed by n steps is m + n steps |
| SmallPrng.RewindIterate | src/rand.rs:19-21 | n steps forward followed by n steps back is the identity |
| SmallPrng.IterateInjective | src/rand.rs:19-21 | runs of equal length end in the same state if and only if they start in the same state |
| SmallPrng.SeededInjective | src/rand.rs:12-23 | two seeds give the same seeded state if and only if they are equal |
| SmallPrng.Outputs | src/rand.rs:35-43 | the i-th value `next` returns from a state is the `d` word after i + 1 steps, and n calls give n values |
| SmallPrng.OutputsSplit | src/rand.rs:35-43 | the first m + n values are the first m followed by the n that come after them |
| Rand.Rand.constructor | src/rand.rs:12-23 | `new(seed)` starts from a = 0xf1ea5eed, b = c = d = seed and advances exactly 20 steps |
| Rand.Rand.Next | src/rand.rs:35-43 | `next` replaces the four words by their successor under the step equations and returns the new `d` |
| Rand.Rand.Copy | src/rand.rs:3-4 | a copy is a new generator with the same words |
| Rand.Take | src/rand.rs:35-43 | n calls of `next` return the first n values of the stream and leave the state n steps on |
| RandTests.LastOfFirst | src/rand.rs:52-58 | seeding and calling `next` count times leaves the count-th value of the seed's stream (0 when count is 0) |
| RandTests.TestsRand | src/rand.rs:50-61 | after `Rand::new(42)` the 100th value returned is 3863832633 |
| RandTests.KnownAnswer | src/rand.rs:51-61 | the 100th value of the stream of seed 42 is 3863832633 |
| RandTests.SameSeedSameStream | src/rand.rs:12-23 | two generators built with the same seed return identical values |
| RandTests.CopyIsIndependent | src/rand.rs:3-4 | advancing a copy leaves the original's state alone: the original then returns the same values the copy did |

## Left out

- `Rand::new_from_time` reads the wall clock and truncates the seconds to 32 bits. The clock is outside the model. Its check that the first output is nonzero is not guaranteed by the algorithm, so there is no property to prove for it.
- `next_f32`, `next_between_f32` and `rand_between` are called elsewhere in the program but are not defined in `src/rand.rs`. They are float conversions and are not part of this model.
- The thread-local generator in `src/main.rs` and the borrow through `RefCell` are runtime plumbing. The model hands a `Rand` object to its callers explicitly instead.
- The rest of the program is left out: the camera, sphere intersection, materials, the recursive `color`, the frame driver, gamma correction and the PPM writer. All of it is floating-point geometry and shading, or I/O.
- The shift amount of `rot` is modelled as a 32-bit word restricted to 1..31. The source only ever passes the constants 27 and 17.
- `+`, `-` and `^` on words are the named functions `WrappingAdd`, `WrappingSub` and `Xor`. Their bodies are the 32-bit operations. Their contracts relate them to 64-bit arithmetic and to single bits, not to unbounded integers.
