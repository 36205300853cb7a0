/**
 * Godot's deferred-call queue (`CallDeferred`): calls are queued in order and
 * run later, one at a time, first in first out. The calls that the level
 * subsystem defers are listed as a datatype over the generator class `G`.
 */
module Deferred {
  import opened Wrappers
  import opened Ints

  datatype Call<G> =
    /** LevelManager.GenerateProcLevel with the generator node (null when the node is missing). */
    | GenerateProcLevel(procTarget: Option<G>)
    /** LevelManager.LoadProcLevelWithSeed with the generator node and the seed. */
    | LoadProcLevelWithSeed(seededTarget: G, seed: Uint64)
    /** LevelManager.RetryProcLevel with the generator node (null when the node is missing). */
    | RetryProcLevel(retryTarget: Option<G>)
    /** LevelGenerator.SpawnMobs on the generator that queued it. */
    | SpawnMobs(spawner: G)

  /** The generator a call acts on, if any. */
  function Target<G>(c: Call<G>): Option<G> {
    match c
    case GenerateProcLevel(g) => g
    case LoadProcLevelWithSeed(g, _) => Some(g)
    case RetryProcLevel(g) => g
    case SpawnMobs(g) => Some(g)
  }

  class DeferredQueue<G> {
    var calls: seq<Call<G>>

    constructor ()
      ensures calls == []
    {
      calls := [];
    }

    method CallDeferred(c: Call<G>)
      modifies this
      ensures calls == old(calls) + [c]
    {
      calls := calls + [c];
    }

    /** Takes the oldest queued call off the queue, if there is one. */
    method Pop() returns (c: Option<Call<G>>)
      modifies this
      ensures old(calls) == [] ==> c == None && calls == []
      ensures old(calls) != [] ==> c == Some(old(calls)[0]) && calls == old(calls)[1..]
    {
      if calls == [] {
        c := None;
      } else {
        c := Some(calls[0]);
        calls := calls[1..];
      }
    }
  }
}
