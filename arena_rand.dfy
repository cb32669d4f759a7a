/** The generator's seeded linear congruential PRNG, as pure functions of
    the 32-bit state word. Every draw returns its value together with the
    state it leaves behind, so the draw order of the generator is explicit. */
module ArenaRand {

  const TWO_TO_32: int := 0x1_0000_0000
  const RAND_MULTIPLIER: int := 1103515245
  const RAND_INCREMENT: int := 12345
  const RAND_MAX_VALUE: int := 32767

  /** The state word, an `unsigned int`. */
  type uint32 = x: int | 0 <= x < 0x1_0000_0000

  /** The state after one step of the recurrence, with unsigned wrap-around. */
  function NextSeed(s: uint32): uint32 {
    (s * RAND_MULTIPLIER + RAND_INCREMENT) % TWO_TO_32
  }

  /** A drawn value and the state after drawing it. */
  datatype Draw = Draw(value: int, seed: uint32)

  /** One draw: advance the state once and take bits 16..30 of the new state. */
  function Rand(s: uint32): (d: Draw)
    ensures d.seed == NextSeed(s)
    ensures 0 <= d.value <= RAND_MAX_VALUE
  {
    var next := NextSeed(s);
    Draw((next / 65536) % 32768, next)
  }

  /** `seed` converted to `unsigned int`, as reseeding with a signed value does. */
  function ToUnsigned(seed: int): (s: uint32)
    ensures 0 <= seed < TWO_TO_32 ==> s == seed
    ensures (s - seed) % TWO_TO_32 == 0
  {
    seed % TWO_TO_32
  }

  /** An inclusive range draw. An empty or one-point range returns `lo`
      without touching the state; otherwise exactly one draw is consumed
      and the value lies in [lo, hi]. */
  function RandRange(s: uint32, lo: int, hi: int): (d: Draw)
    ensures hi <= lo ==> d == Draw(lo, s)
    ensures lo < hi ==> lo <= d.value <= hi && d.seed == NextSeed(s)
  {
    if hi <= lo then Draw(lo, s)
    else
      var r := Rand(s);
      Draw(lo + r.value % (hi - lo + 1), r.seed)
  }
}
