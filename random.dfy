/**
 * Godot's `RandomNumberGenerator`, seen as a deterministic state machine.
 * The model does not fix the generator's algorithm: a `Prng` is any pair of
 * pure functions, one giving the state that a seed implies and one drawing a
 * value in a range and giving the next state.
 */
module Random {
  import opened Ints
  import opened World

  /** The RNG's internal state word. */
  type RngState = Uint64

  datatype Prng = Prng(
    /** The state that assigning `Seed = seed` puts the RNG in. */
    seeded: Uint64 -> RngState,
    /** `RandfRange(lo, hi)` drawn in a state: the value and the following state. */
    randfRange: (RngState, real, real) -> (real, RngState))

  /** `RandfRange(from, to)` is `from + randf() * (to - from)`: it lands between the two bounds, in either order. */
  ghost predicate DrawsInRange(p: Prng) {
    forall st: RngState, lo: real, hi: real :: Lower(lo, hi) <= p.randfRange(st, lo, hi).0 <= Upper(lo, hi)
  }
}
