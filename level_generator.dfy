/**
 * levels/LevelGenerator.cs: the node that populates a procedural level with
 * mobs. It keeps the seed of its current population and its own seeded RNG;
 * a population pass draws candidate (x, z) positions from the spawn area,
 * probes the ground straight down at each, and keeps a mob only where the
 * probe hits, giving up after 3 * MobCount attempts.
 *
 * The first half of this module is the specification, as pure functions on
 * values: what one attempt, the attempt loop, a reseed and a spawn pass do.
 * The second half is the `LevelGenerator` class, whose methods are proved
 * against those functions.
 */
module LevelGeneration {
  import opened Wrappers
  import opened Ints
  import opened Random
  import opened World
  import opened Deferred

  /** The exported settings of the node. */
  datatype Config = Config(
    mobCount: Int32,
    spawnAreaMin: Vector3,
    spawnAreaMax: Vector3,
    raycastHeight: real)

  /** The values the node is declared with. */
  const DefaultConfig: Config :=
    Config(10, Vector3(-50.0, 0.0, -50.0), Vector3(50.0, 0.0, 50.0), 100.0)

  /** A child node of the generator: a placed mob, or any other node of the scene. */
  datatype Child = MobNode(position: Vector3) | OtherNode(name: string, node3D: bool)

  /** `child is Node3D`: every mob is a CharacterBody3D, hence a Node3D. */
  predicate IsNode3D(c: Child) {
    c.MobNode? || c.node3D
  }

  /** What the generator prints, warns and reports as an error. */
  datatype LogEntry =
    | Generated(seed: Uint64)
    | SpaceStateMissing
    | SpawnReport(spawned: int, target: int)
    | ShortfallWarning(spawned: int, target: int)

  /** The mutable part of a generator. */
  datatype GenState = GenState(
    currentSeed: Uint64,
    rngState: RngState,
    children: seq<Child>,
    freed: seq<Child>,
    log: seq<LogEntry>)

  // ---------------------------------------------------------------------------
  // ClearMobs: which children are handed to QueueFree and which stay

  /** The children that ClearMobs frees, in child order. */
  function Node3DChildren(cs: seq<Child>): (r: seq<Child>)
    ensures forall c <- r :: IsNode3D(c)
    ensures |r| <= |cs|
  {
    if cs == [] then []
    else Node3DChildren(cs[..|cs| - 1]) + (if IsNode3D(cs[|cs| - 1]) then [cs[|cs| - 1]] else [])
  }

  /** The children that ClearMobs leaves in place, in child order. */
  function OtherChildren(cs: seq<Child>): (r: seq<Child>)
    ensures forall c <- r :: !IsNode3D(c)
    ensures |r| <= |cs|
  {
    if cs == [] then []
    else OtherChildren(cs[..|cs| - 1]) + (if IsNode3D(cs[|cs| - 1]) then [] else [cs[|cs| - 1]])
  }

  /** Clearing splits the children: nothing is lost, nothing is invented, and every non-Node3D child stays. */
  lemma {:induction false} ClearPartitionsChildren(cs: seq<Child>)
    ensures multiset(OtherChildren(cs)) + multiset(Node3DChildren(cs)) == multiset(cs)
    ensures forall c <- cs :: !IsNode3D(c) ==> c in OtherChildren(cs)
    ensures forall c <- cs :: IsNode3D(c) ==> c in Node3DChildren(cs)
  {
    if cs != [] {
      var init := cs[..|cs| - 1];
      ClearPartitionsChildren(init);
      assert cs == init + [cs[|cs| - 1]];
      forall c <- cs
        ensures !IsNode3D(c) ==> c in OtherChildren(cs)
        ensures IsNode3D(c) ==> c in Node3DChildren(cs)
      {
        if c != cs[|cs| - 1] {
          assert c in init;
        }
      }
    }
  }

  // ---------------------------------------------------------------------------
  // One attempt and the attempt loop

  /** `MobCount * 3` as C# computes it, with 32-bit wrap-around. */
  function MaxAttempts(cfg: Config): (m: Int32)
    ensures 0 <= cfg.mobCount <= INT32_MAX / 3 ==> m == 3 * cfg.mobCount
  {
    Wrap32(cfg.mobCount * 3)
  }

  /** A point above the spawn rectangle spanned by the two corners, within the probed height. */
  predicate InSpawnVolume(cfg: Config, p: Vector3) {
    && Lower(cfg.spawnAreaMin.x, cfg.spawnAreaMax.x) <= p.x <= Upper(cfg.spawnAreaMin.x, cfg.spawnAreaMax.x)
    && Lower(cfg.spawnAreaMin.z, cfg.spawnAreaMax.z) <= p.z <= Upper(cfg.spawnAreaMin.z, cfg.spawnAreaMax.z)
    && Lower(cfg.raycastHeight, -cfg.raycastHeight) <= p.y <= Upper(cfg.raycastHeight, -cfg.raycastHeight)
  }

  /** One attempt: the drawn candidate, the probe's answer, and the RNG state afterwards. */
  datatype Attempt = Attempt(x: real, z: real, hit: Option<Vector3>, next: RngState)

  /** TrySpawnMobAtRandomPosition without its side effects: draw x, then z, then probe down at (x, z). */
  function TryOnce(prng: Prng, cfg: Config, space: SpaceState, st: RngState): (a: Attempt)
    ensures a.hit == space(Vector3(a.x, cfg.raycastHeight, a.z), Vector3(a.x, -cfg.raycastHeight, a.z))
    ensures DrawsInRange(prng) && HitsOnRay(space) && a.hit.Some? ==>
              InSpawnVolume(cfg, a.hit.value)
  {
    var xDraw := prng.randfRange(st, cfg.spawnAreaMin.x, cfg.spawnAreaMax.x);
    var zDraw := prng.randfRange(xDraw.1, cfg.spawnAreaMin.z, cfg.spawnAreaMax.z);
    var origin := Vector3(xDraw.0, cfg.raycastHeight, zDraw.0);
    var target := Vector3(xDraw.0, -cfg.raycastHeight, zDraw.0);
    Attempt(xDraw.0, zDraw.0, space(origin, target), zDraw.1)
  }

  /** The outcome of the attempt loop: the accepted positions in order, the attempt counter, the RNG state. */
  datatype SpawnRun = SpawnRun(placed: seq<Vector3>, attempts: int, state: RngState)

  /** The loop of SpawnMobs, run from the given counters. */
  function SpawnLoop(prng: Prng, cfg: Config, space: SpaceState, st: RngState, spawned: int, attempts: int): SpawnRun
    decreases MaxAttempts(cfg) - attempts
  {
    if spawned < cfg.mobCount && attempts < MaxAttempts(cfg) then
      var a := TryOnce(prng, cfg, space, st);
      var rest := SpawnLoop(prng, cfg, space, a.next, if a.hit.Some? then spawned + 1 else spawned, attempts + 1);
      SpawnRun((if a.hit.Some? then [a.hit.value] else []) + rest.placed, rest.attempts, rest.state)
    else
      SpawnRun([], attempts, st)
  }

  /** The whole loop, from zero spawned and zero attempts. */
  function Placements(prng: Prng, cfg: Config, space: SpaceState, st: RngState): SpawnRun {
    SpawnLoop(prng, cfg, space, st, 0, 0)
  }

  lemma {:induction false} SpawnLoopCounters(prng: Prng, cfg: Config, space: SpaceState, st: RngState, spawned: int, attempts: int)
    requires 0 <= spawned <= attempts
    ensures var r := SpawnLoop(prng, cfg, space, st, spawned, attempts);
      && attempts <= r.attempts <= Max(attempts, MaxAttempts(cfg))
      && spawned + |r.placed| <= r.attempts
      && spawned + |r.placed| <= Max(spawned, cfg.mobCount)
      && (spawned + |r.placed| >= cfg.mobCount || r.attempts >= MaxAttempts(cfg))
    decreases MaxAttempts(cfg) - attempts
  {
    if spawned < cfg.mobCount && attempts < MaxAttempts(cfg) {
      var a := TryOnce(prng, cfg, space, st);
      SpawnLoopCounters(prng, cfg, space, a.next, if a.hit.Some? then spawned + 1 else spawned, attempts + 1);
    }
  }

  /**
   * The loop always ends within its budget: at most max(0, 3 * MobCount)
   * attempts, at most max(0, MobCount) mobs, never more mobs than attempts,
   * and it stops only when the target is met or the budget is used up.
   */
  lemma PlacementBounds(prng: Prng, cfg: Config, space: SpaceState, st: RngState)
    ensures var r := Placements(prng, cfg, space, st);
      && 0 <= r.attempts <= Max(0, MaxAttempts(cfg))
      && |r.placed| <= r.attempts
      && |r.placed| <= Max(0, cfg.mobCount)
      && (|r.placed| >= cfg.mobCount || r.attempts >= MaxAttempts(cfg))
      && (0 <= cfg.mobCount <= INT32_MAX / 3 ==>
            |r.placed| == cfg.mobCount || r.attempts == 3 * cfg.mobCount)
  {
    SpawnLoopCounters(prng, cfg, space, st, 0, 0);
  }

  lemma {:induction false} SpawnLoopInsideArea(prng: Prng, cfg: Config, space: SpaceState, st: RngState, spawned: int, attempts: int)
    requires DrawsInRange(prng) && HitsOnRay(space)
    ensures forall p <- SpawnLoop(prng, cfg, space, st, spawned, attempts).placed :: InSpawnVolume(cfg, p)
    decreases MaxAttempts(cfg) - attempts
  {
    if spawned < cfg.mobCount && attempts < MaxAttempts(cfg) {
      var a := TryOnce(prng, cfg, space, st);
      SpawnLoopInsideArea(prng, cfg, space, a.next, if a.hit.Some? then spawned + 1 else spawned, attempts + 1);
    }
  }

  /** Every accepted position is a probe hit above the spawn rectangle, within the probed height. */
  lemma PlacedInsideArea(prng: Prng, cfg: Config, space: SpaceState, st: RngState)
    requires DrawsInRange(prng) && HitsOnRay(space)
    ensures forall p <- Placements(prng, cfg, space, st).placed :: InSpawnVolume(cfg, p)
  {
    SpawnLoopInsideArea(prng, cfg, space, st, 0, 0);
  }

  lemma {:induction false} SpawnLoopOverVoid(prng: Prng, cfg: Config, space: SpaceState, st: RngState, spawned: int, attempts: int)
    requires forall origin, target :: space(origin, target).None?
    ensures var r := SpawnLoop(prng, cfg, space, st, spawned, attempts);
      r.placed == [] && r.attempts == (if spawned < cfg.mobCount then Max(attempts, MaxAttempts(cfg)) else attempts)
    decreases MaxAttempts(cfg) - attempts
  {
    if spawned < cfg.mobCount && attempts < MaxAttempts(cfg) {
      var a := TryOnce(prng, cfg, space, st);
      SpawnLoopOverVoid(prng, cfg, space, a.next, spawned, attempts + 1);
    }
  }

  /** Where no probe ever hits, the pass spends its whole budget and places nothing. */
  lemma NoGroundPlacesNothing(prng: Prng, cfg: Config, space: SpaceState, st: RngState)
    requires forall origin, target :: space(origin, target).None?
    ensures var r := Placements(prng, cfg, space, st);
      r.placed == [] && r.attempts == (if 0 < cfg.mobCount then Max(0, MaxAttempts(cfg)) else 0)
  {
    SpawnLoopOverVoid(prng, cfg, space, st, 0, 0);
  }

  lemma {:induction false} SpawnLoopOverGround(prng: Prng, cfg: Config, space: SpaceState, st: RngState, n: int)
    requires forall origin, target :: space(origin, target).Some?
    requires 0 <= n <= cfg.mobCount <= INT32_MAX / 3
    ensures var r := SpawnLoop(prng, cfg, space, st, n, n);
      n + |r.placed| == cfg.mobCount && r.attempts == cfg.mobCount
    decreases cfg.mobCount - n
  {
    if n < cfg.mobCount {
      var a := TryOnce(prng, cfg, space, st);
      SpawnLoopOverGround(prng, cfg, space, a.next, n + 1);
    }
  }

  /** Where every probe hits, the pass places exactly MobCount mobs with one attempt each. */
  lemma SolidGroundPlacesAll(prng: Prng, cfg: Config, space: SpaceState, st: RngState)
    requires forall origin, target :: space(origin, target).Some?
    requires 0 <= cfg.mobCount <= INT32_MAX / 3
    ensures var r := Placements(prng, cfg, space, st);
      |r.placed| == cfg.mobCount && r.attempts == cfg.mobCount
  {
    SpawnLoopOverGround(prng, cfg, space, st, 0);
  }

  // ---------------------------------------------------------------------------
  // A reseed and a spawn pass, as transitions of the generator's state

  /** The mob nodes for the given positions, in order. */
  function MobNodes(ps: seq<Vector3>): seq<Child> {
    seq(|ps|, i requires 0 <= i < |ps| => MobNode(ps[i]))
  }

  lemma MobNodesAppend(ps: seq<Vector3>, qs: seq<Vector3>)
    ensures MobNodes(ps + qs) == MobNodes(ps) + MobNodes(qs)
  {
    assert forall i :: 0 <= i < |ps + qs| ==> MobNodes(ps + qs)[i] == (MobNodes(ps) + MobNodes(qs))[i];
  }

  /** A run of the loop resumed after `placed` were already accepted. */
  function Resumed(placed: seq<Vector3>, r: SpawnRun): SpawnRun {
    SpawnRun(placed + r.placed, r.attempts, r.state)
  }

  lemma SpawnLoopStep(prng: Prng, cfg: Config, space: SpaceState, st: RngState, spawned: int, attempts: int, placed: seq<Vector3>)
    requires spawned < cfg.mobCount && attempts < MaxAttempts(cfg)
    ensures var a := TryOnce(prng, cfg, space, st);
      Resumed(placed, SpawnLoop(prng, cfg, space, st, spawned, attempts))
      == if a.hit.Some?
         then Resumed(placed + [a.hit.value], SpawnLoop(prng, cfg, space, a.next, spawned + 1, attempts + 1))
         else Resumed(placed, SpawnLoop(prng, cfg, space, a.next, spawned, attempts + 1))
  {
    var a := TryOnce(prng, cfg, space, st);
    if a.hit.Some? {
      var next := SpawnLoop(prng, cfg, space, a.next, spawned + 1, attempts + 1);
      assert placed + ([a.hit.value] + next.placed) == (placed + [a.hit.value]) + next.placed;
    }
  }

  /** GenerateLevelWithSeed: record the seed, reseed the RNG, free the Node3D children, and log. */
  function Reseeded(s: GenState, prng: Prng, seed: Uint64): (r: GenState)
    ensures r.currentSeed == seed && r.rngState == prng.seeded(seed)
    ensures forall c <- r.children :: !IsNode3D(c)
    ensures forall c <- s.children :: !IsNode3D(c) ==> c in r.children
    ensures multiset(r.children) + multiset(r.freed) == multiset(s.children) + multiset(s.freed)
    ensures r.log == s.log + [Generated(seed)]
  {
    ClearPartitionsChildren(s.children);
    GenState(seed, prng.seeded(seed), OtherChildren(s.children),
             s.freed + Node3DChildren(s.children), s.log + [Generated(seed)])
  }

  /** Whether a stretch of the log holds a shortfall warning. */
  predicate WarnsShortfall(entries: seq<LogEntry>) {
    exists e <- entries :: e.ShortfallWarning?
  }

  /**
   * SpawnMobs: with no space state, log the error; otherwise run the attempt
   * loop from the current RNG state, append one mob per accepted position,
   * report, and warn when short of MobCount.
   */
  function Spawned(s: GenState, prng: Prng, cfg: Config, space: Option<SpaceState>): GenState {
    match space
    case None =>
      s.(log := s.log + [SpaceStateMissing])
    case Some(sp) =>
      var run := Placements(prng, cfg, sp, s.rngState);
      var n := |run.placed|;
      var report := [SpawnReport(n, cfg.mobCount)] + (if n < cfg.mobCount then [ShortfallWarning(n, cfg.mobCount)] else []);
      s.(rngState := run.state, children := s.children + MobNodes(run.placed), log := s.log + report)
  }

  /**
   * A spawn pass keeps the seed and the freed nodes, only appends children,
   * all of them mobs, and only appends to the log; with no space state it
   * changes nothing but the log; otherwise the log gains a shortfall warning
   * exactly when fewer than MobCount mobs were added.
   */
  lemma SpawnedEffects(s: GenState, prng: Prng, cfg: Config, space: Option<SpaceState>)
    ensures var r := Spawned(s, prng, cfg, space);
      && r.currentSeed == s.currentSeed && r.freed == s.freed
      && |s.children| <= |r.children| && r.children[..|s.children|] == s.children
      && (forall c <- r.children[|s.children|..] :: c.MobNode?)
      && |s.log| < |r.log| && r.log[..|s.log|] == s.log
      && (space.None? ==> r.children == s.children && r.rngState == s.rngState)
      && (space.Some? ==> (WarnsShortfall(r.log[|s.log|..]) <==> |r.children| - |s.children| < cfg.mobCount))
  {
    if space.Some? {
      var run := Placements(prng, cfg, space.value, s.rngState);
      var n := |run.placed|;
      var report := [SpawnReport(n, cfg.mobCount)] + (if n < cfg.mobCount then [ShortfallWarning(n, cfg.mobCount)] else []);
      assert (s.log + report)[|s.log|..] == report;
      assert (s.children + MobNodes(run.placed))[|s.children|..] == MobNodes(run.placed);
      assert n < cfg.mobCount ==> report[1].ShortfallWarning?;
      assert n >= cfg.mobCount ==> report == [SpawnReport(n, cfg.mobCount)];
    }
  }

  /**
   * Determinism: after a reseed with `seed`, the mobs a spawn pass adds, and
   * the RNG state it leaves, depend only on the seed, the settings and the
   * space; the generator's earlier state plays no part.
   */
  lemma SeedDeterminesPass(s1: GenState, s2: GenState, prng: Prng, cfg: Config, space: SpaceState, seed: Uint64)
    ensures var r1 := Spawned(Reseeded(s1, prng, seed), prng, cfg, Some(space));
            var r2 := Spawned(Reseeded(s2, prng, seed), prng, cfg, Some(space));
            var run := Placements(prng, cfg, space, prng.seeded(seed));
      && r1.children[|OtherChildren(s1.children)|..] == MobNodes(run.placed)
      && r2.children[|OtherChildren(s2.children)|..] == MobNodes(run.placed)
      && r1.rngState == r2.rngState == run.state
      && r1.currentSeed == r2.currentSeed == seed
  {
    var run := Placements(prng, cfg, space, prng.seeded(seed));
    var o1 := OtherChildren(s1.children);
    var o2 := OtherChildren(s2.children);
    assert (o1 + MobNodes(run.placed))[|o1|..] == MobNodes(run.placed);
    assert (o2 + MobNodes(run.placed))[|o2|..] == MobNodes(run.placed);
  }

  // ---------------------------------------------------------------------------
  // The node

  class LevelGenerator {
    const config: Config
    const prng: Prng
    /** The engine's deferred-call queue, shared with the level manager. */
    const queue: DeferredQueue<LevelGenerator>

    var currentSeed: Uint64
    var rngState: RngState
    var children: seq<Child>
    /** The children handed to QueueFree, in order. */
    var freed: seq<Child>
    var log: seq<LogEntry>

    function State(): GenState
      reads this
    {
      GenState(currentSeed, rngState, children, freed, log)
    }

    /** A node as instantiated from its scene: the scene's children, a fresh RNG, seed 0. */
    constructor (config: Config, prng: Prng, queue: DeferredQueue<LevelGenerator>, rngState: RngState, children: seq<Child>)
      ensures this.config == config && this.prng == prng && this.queue == queue
      ensures State() == GenState(0, rngState, children, [], [])
    {
      this.config := config;
      this.prng := prng;
      this.queue := queue;
      this.currentSeed := 0;
      this.rngState := rngState;
      this.children := children;
      this.freed := [];
      this.log := [];
    }

    /** The seed of the last generation. */
    function GetCurrentSeed(): (seed: Uint64)
      reads this
      ensures seed == currentSeed
    {
      currentSeed
    }

    /** Generates with a fresh seed: `randi` is the value of `GD.Randi()`, so the seed fits in 32 bits. */
    method GenerateLevel(randi: Uint32)
      modifies this, queue
      ensures currentSeed == randi < TWO_TO_32
      ensures State() == Reseeded(old(State()), prng, randi)
      ensures queue.calls == old(queue.calls) + [Call.SpawnMobs(this)]
    {
      currentSeed := randi;
      GenerateLevelWithSeed(currentSeed);
    }

    method GenerateLevelWithSeed(seed: Uint64)
      modifies this, queue
      ensures GetCurrentSeed() == seed
      ensures State() == Reseeded(old(State()), prng, seed)
      ensures queue.calls == old(queue.calls) + [Call.SpawnMobs(this)]
    {
      currentSeed := seed;
      rngState := prng.seeded(seed);
      ClearMobs();
      queue.CallDeferred(Call.SpawnMobs(this));
      log := log + [Generated(seed)];
    }

    /** Hands every Node3D child to QueueFree and keeps every other child. */
    method ClearMobs()
      modifies this
      ensures children == OtherChildren(old(children))
      ensures freed == old(freed) + Node3DChildren(old(children))
      ensures currentSeed == old(currentSeed) && rngState == old(rngState) && log == old(log)
    {
      var all := children;
      var kept: seq<Child> := [];
      var i := 0;
      while i < |all|
        invariant 0 <= i <= |all|
        invariant kept == OtherChildren(all[..i])
        invariant freed == old(freed) + Node3DChildren(all[..i])
        invariant currentSeed == old(currentSeed) && rngState == old(rngState) && log == old(log)
      {
        assert all[..i + 1][..i] == all[..i];
        if IsNode3D(all[i]) {
          freed := freed + [all[i]];
        } else {
          kept := kept + [all[i]];
        }
        i := i + 1;
      }
      assert all[..|all|] == all;
      children := kept;
    }

    /** One attempt: two draws, one probe, and a mob at the hit point when the probe hits. */
    method TrySpawnMobAtRandomPosition(space: SpaceState) returns (hit: bool)
      modifies this
      ensures var a := TryOnce(prng, config, space, old(rngState));
        && hit == a.hit.Some?
        && rngState == a.next
        && children == old(children) + (if hit then [MobNode(a.hit.value)] else [])
      ensures currentSeed == old(currentSeed) && freed == old(freed) && log == old(log)
    {
      var xDraw := prng.randfRange(rngState, config.spawnAreaMin.x, config.spawnAreaMax.x);
      rngState := xDraw.1;
      var zDraw := prng.randfRange(rngState, config.spawnAreaMin.z, config.spawnAreaMax.z);
      rngState := zDraw.1;
      var rayOrigin := Vector3(xDraw.0, config.raycastHeight, zDraw.0);
      var rayEnd := Vector3(xDraw.0, -config.raycastHeight, zDraw.0);
      var result := space(rayOrigin, rayEnd);
      if result.None? {
        return false;
      }
      children := children + [MobNode(result.value)];
      hit := true;
    }

    /** The attempt loop of the population pass: up to 3 * MobCount attempts, stopping at MobCount mobs. */
    method PlaceMobs(sp: SpaceState) returns (spawned: int, attempts: int)
      modifies this
      ensures var run := Placements(prng, config, sp, old(rngState));
        && spawned == |run.placed| && attempts == run.attempts
        && children == old(children) + MobNodes(run.placed) && rngState == run.state
      ensures currentSeed == old(currentSeed) && freed == old(freed) && log == old(log)
    {
      spawned, attempts := 0, 0;
      var maxAttempts := Wrap32(config.mobCount * 3);
      assert maxAttempts == MaxAttempts(config);
      ghost var run := Placements(prng, config, sp, rngState);
      ghost var placed: seq<Vector3> := [];
      while spawned < config.mobCount && attempts < maxAttempts
        invariant 0 <= spawned <= attempts && spawned == |placed|
        invariant run == Resumed(placed, SpawnLoop(prng, config, sp, rngState, spawned, attempts))
        invariant children == old(children) + MobNodes(placed)
        invariant currentSeed == old(currentSeed) && freed == old(freed) && log == old(log)
        decreases maxAttempts - attempts
      {
        ghost var a := TryOnce(prng, config, sp, rngState);
        SpawnLoopStep(prng, config, sp, rngState, spawned, attempts, placed);
        attempts := attempts + 1;
        var hit := TrySpawnMobAtRandomPosition(sp);
        if hit {
          spawned := spawned + 1;
          MobNodesAppend(placed, [a.hit.value]);
          placed := placed + [a.hit.value];
        }
      }
      assert SpawnLoop(prng, config, sp, rngState, spawned, attempts) == SpawnRun([], attempts, rngState);
      assert placed + [] == placed;
    }

    /** The population pass; `spawned` and `attempts` are the loop's counters when it ends. */
    method SpawnMobs(space: Option<SpaceState>) returns (spawned: int, attempts: int)
      modifies this
      ensures State() == Spawned(old(State()), prng, config, space)
      ensures space.None? ==> spawned == 0 && attempts == 0
      ensures space.Some? ==>
        var run := Placements(prng, config, space.value, old(rngState));
        spawned == |run.placed| && attempts == run.attempts
    {
      if space.None? {
        log := log + [SpaceStateMissing];
        return 0, 0;
      }
      spawned, attempts := PlaceMobs(space.value);
      log := log + [SpawnReport(spawned, config.mobCount)];
      if spawned < config.mobCount {
        log := log + [ShortfallWarning(spawned, config.mobCount)];
      }
    }
  }
}
