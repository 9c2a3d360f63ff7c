/**
 * The pseudo-random source of the status screen (`pseudo_rand`): a linear
 * congruential generator over a static 32-bit seed that starts at 12345.
 * The seed is a `uint32_t` in the program; bv32 arithmetic wraps the same way.
 */
module PseudoRandom {
  const InitialSeed: bv32 := 12345
  const Multiplier: bv32 := 1103515245
  const Increment: bv32 := 12345

  /** The multiply-add of `pseudo_rand` in `uint32_t` arithmetic, which wraps modulo 2^32. */
  function Wrapped(s: bv32): bv32 {
    s * Multiplier + Increment
  }

  /** The mask `& 0x7fffffff`: clearing bit 31 is the unsigned remainder modulo 2^31. */
  function Mask(w: bv32): (r: bv32)
    ensures r < 0x8000_0000
    ensures r == w % 0x8000_0000
  {
    w & 0x7fff_ffff
  }

  /**
   * One step of `pseudo_rand`: the wrapping multiply-add, kept modulo 2^31,
   * so every draw is below 2^31.
   */
  function NextSeed(s: bv32): (r: bv32)
    ensures r < 0x8000_0000
    ensures r == Wrapped(s) % 0x8000_0000
  {
    Mask(Wrapped(s))
  }

  /** The seed after `n` draws. */
  function SeedAfter(s: bv32, n: nat): (r: bv32)
    ensures n > 0 ==> r < 0x8000_0000
  {
    if n == 0 then s else NextSeed(SeedAfter(s, n - 1))
  }

  /** Five draws in a row, as `init_particles` makes per particle, advance the count by five. */
  lemma SeedAfterFive(s: bv32, n: nat)
    ensures SeedAfter(s, n + 5) == NextSeed(NextSeed(NextSeed(NextSeed(NextSeed(SeedAfter(s, n))))))
  {
    assert SeedAfter(s, n + 1) == NextSeed(SeedAfter(s, n));
    assert SeedAfter(s, n + 2) == NextSeed(SeedAfter(s, n + 1));
    assert SeedAfter(s, n + 3) == NextSeed(SeedAfter(s, n + 2));
    assert SeedAfter(s, n + 4) == NextSeed(SeedAfter(s, n + 3));
  }

  /** The first draws from the static seed 12345. */
  lemma FirstDraws()
    ensures SeedAfter(InitialSeed, 1) == 1406932606
    ensures SeedAfter(InitialSeed, 2) == 654583775
    ensures SeedAfter(InitialSeed, 5) == 1109335178
  {
  }

}
