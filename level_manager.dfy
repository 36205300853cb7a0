/**
 * LevelManager.cs: the level lifecycle. The manager keeps the current level
 * number, at most one live level instance and the seed of the last
 * procedural generation. Every load retires the current instance and
 * instantiates a new one; populating a procedural instance is deferred to a
 * later step of the engine's deferred-call queue, and the seed is recorded
 * only when that step runs.
 */
module LevelManagement {
  import opened Wrappers
  import opened Ints
  import opened Random
  import opened World
  import opened Deferred
  import opened LevelGeneration

  /** The three exported scenes a level number can resolve to. */
  datatype Topology = Procedural | Hub | Boss1

  /** The scene for a level number: 5 is the hub, 8 the first boss level, every other number procedural. */
  function GetLevelScene(levelNumber: int): (t: Topology)
    ensures t == Hub <==> levelNumber == 5
    ensures t == Boss1 <==> levelNumber == 8
  {
    if levelNumber == 5 then Hub
    else if levelNumber == 8 then Boss1
    else Procedural
  }

  /** The second switch on the level number agrees with the first: procedural exactly when the scene is. */
  function IsProceduralLevel(levelNumber: int): (r: bool)
    ensures r <==> GetLevelScene(levelNumber) == Procedural
    ensures r <==> levelNumber != 5 && levelNumber != 8
  {
    if levelNumber == 5 then false
    else if levelNumber == 8 then false
    else true
  }

  /** The LevelGenerator node a scene holds: its settings, its other children, its RNG's starting state. */
  datatype GeneratorTemplate = GeneratorTemplate(config: Config, children: seq<Child>, rngState: RngState)

  /** What the model needs of a packed scene: the "LevelGenerator" node, if the scene has one. */
  datatype SceneConfig = SceneConfig(generator: Option<GeneratorTemplate>)

  /** Errors the engine reports: `GetNode` on a missing node, and a deferred call on a null generator. */
  datatype ManagerError = GeneratorNotFound | NullGeneratorCall

  /** An instantiated level scene. */
  class LevelInstance {
    const topology: Topology
    const generator: LevelGenerator?

    /** Just instantiated from `scene`: the generator node is there exactly when the scene has one, untouched. */
    ghost predicate InstanceOf(scene: SceneConfig, prng: Prng, queue: DeferredQueue<LevelGenerator>)
      reads this, generator
    {
      match scene.generator
      case None => generator == null
      case Some(t) =>
        && generator != null
        && generator.config == t.config
        && generator.prng == prng
        && generator.queue == queue
        && generator.State() == GenState(0, t.rngState, t.children, [], [])
    }

    /** `PackedScene.Instantiate`. */
    constructor Instantiate(topology: Topology, scene: SceneConfig, prng: Prng, queue: DeferredQueue<LevelGenerator>)
      ensures this.topology == topology
      ensures InstanceOf(scene, prng, queue)
      ensures generator != null ==> fresh(generator)
    {
      var g: LevelGenerator? := null;
      if scene.generator.Some? {
        var t := scene.generator.value;
        g := new LevelGenerator(t.config, prng, queue, t.rngState, t.children);
      }
      this.topology := topology;
      this.generator := g;
    }
  }

  /** The generator node of an instance as `GetNode` gives it: null when missing. */
  function GeneratorOf(i: LevelInstance): Option<LevelGenerator> {
    if i.generator == null then None else Some(i.generator)
  }

  /** What ClearCurrentLevel hands to QueueFree. */
  function Retired(i: LevelInstance?): seq<LevelInstance> {
    if i == null then [] else [i]
  }

  class LevelManager {
    const proceduralLevelScene: SceneConfig
    const bossLevel1Scene: SceneConfig
    const hubWorldScene: SceneConfig
    const prng: Prng
    /** The engine's deferred-call queue. */
    const queue: DeferredQueue<LevelGenerator>

    var currentLevelInstance: LevelInstance?
    var currentLevelNumber: Int32
    var lastProceduralSeed: Uint64
    /** Every instance added to the level container, in order. */
    var attached: seq<LevelInstance>
    /** Every instance handed to QueueFree, in order. */
    var freed: seq<LevelInstance>
    /** Every `LevelLoaded` signal emitted, with its level number. */
    var levelLoaded: seq<Int32>
    var errors: seq<ManagerError>

    function SceneFor(t: Topology): SceneConfig {
      match t
      case Procedural => proceduralLevelScene
      case Hub => hubWorldScene
      case Boss1 => bossLevel1Scene
    }

    /**
     * At most one live instance: every attached instance other than the
     * current one has been freed, and the current one has not. Every
     * generator the manager can reach, and every queued call's generator,
     * uses the manager's deferred-call queue.
     */
    ghost predicate Valid()
      reads this, queue
    {
      && (currentLevelInstance != null ==>
            && currentLevelInstance in attached
            && currentLevelInstance !in freed
            && (currentLevelInstance.generator != null ==> currentLevelInstance.generator.queue == queue))
      && (forall k | 0 <= k < |attached| :: attached[k] == currentLevelInstance || attached[k] in freed)
      && (forall k | 0 <= k < |queue.calls| :: Target(queue.calls[k]).Some? ==> Target(queue.calls[k]).value.queue == queue)
    }

    /** `_Ready`: a fresh manager loads level 0. */
    constructor (proceduralLevelScene: SceneConfig, bossLevel1Scene: SceneConfig, hubWorldScene: SceneConfig, prng: Prng)
      ensures Valid() && fresh(queue)
      ensures this.proceduralLevelScene == proceduralLevelScene && this.bossLevel1Scene == bossLevel1Scene
      ensures this.hubWorldScene == hubWorldScene && this.prng == prng
      ensures currentLevelNumber == 0 && lastProceduralSeed == 0 && levelLoaded == [0] && freed == []
      ensures currentLevelInstance != null && attached == [currentLevelInstance]
      ensures currentLevelInstance.topology == Procedural
      ensures currentLevelInstance.InstanceOf(proceduralLevelScene, prng, queue)
      ensures queue.calls == [Call.GenerateProcLevel(GeneratorOf(currentLevelInstance))]
      ensures errors == (if proceduralLevelScene.generator.None? then [GeneratorNotFound] else [])
    {
      this.proceduralLevelScene := proceduralLevelScene;
      this.bossLevel1Scene := bossLevel1Scene;
      this.hubWorldScene := hubWorldScene;
      this.prng := prng;
      this.queue := new DeferredQueue<LevelGenerator>();
      currentLevelInstance := null;
      currentLevelNumber := 0;
      lastProceduralSeed := 0;
      attached := [];
      freed := [];
      levelLoaded := [];
      errors := [];
      new;
      LoadLevel(0);
    }

    /** The seed of the last procedural generation that ran. */
    function GetLastSeed(): (seed: Uint64)
      reads this
      ensures seed == lastProceduralSeed
    {
      lastProceduralSeed
    }

    /** Hands the current instance, if any, to QueueFree; a second call changes nothing. */
    method ClearCurrentLevel()
      requires Valid()
      modifies this`currentLevelInstance, this`freed
      ensures currentLevelInstance == null
      ensures freed == old(freed) + Retired(old(currentLevelInstance))
      ensures forall k | 0 <= k < |attached| :: attached[k] in freed
    {
      if currentLevelInstance != null {
        freed := freed + [currentLevelInstance];
        currentLevelInstance := null;
      }
    }

    /** Instantiates the scene of `t`, adds it to the level container and makes it current. */
    method AttachNew(t: Topology)
      requires forall k | 0 <= k < |attached| :: attached[k] in freed
      requires currentLevelInstance == null
      requires forall k | 0 <= k < |queue.calls| :: Target(queue.calls[k]).Some? ==> Target(queue.calls[k]).value.queue == queue
      modifies this`currentLevelInstance, this`attached
      ensures Valid()
      ensures currentLevelInstance != null && fresh(currentLevelInstance)
      ensures currentLevelInstance.generator != null ==> fresh(currentLevelInstance.generator)
      ensures currentLevelInstance.topology == t
      ensures currentLevelInstance.InstanceOf(SceneFor(t), prng, queue)
      ensures attached == old(attached) + [currentLevelInstance]
    {
      var instance := new LevelInstance.Instantiate(t, SceneFor(t), prng, queue);
      currentLevelInstance := instance;
      attached := attached + [instance];
    }

    method LoadLevel(levelNumber: Int32)
      requires Valid()
      modifies this, queue
      ensures Valid()
      ensures currentLevelNumber == levelNumber && lastProceduralSeed == old(lastProceduralSeed)
      ensures currentLevelInstance != null && fresh(currentLevelInstance)
      ensures currentLevelInstance.generator != null ==> fresh(currentLevelInstance.generator)
      ensures currentLevelInstance.topology == GetLevelScene(levelNumber)
      ensures currentLevelInstance.InstanceOf(SceneFor(GetLevelScene(levelNumber)), prng, queue)
      ensures attached == old(attached) + [currentLevelInstance]
      ensures freed == old(freed) + Retired(old(currentLevelInstance))
      ensures levelLoaded == old(levelLoaded) + [levelNumber]
      ensures queue.calls == old(queue.calls) +
        (if IsProceduralLevel(levelNumber) then [Call.GenerateProcLevel(GeneratorOf(currentLevelInstance))] else [])
      ensures errors == old(errors) +
        (if IsProceduralLevel(levelNumber) && currentLevelInstance.generator == null then [GeneratorNotFound] else [])
    {
      currentLevelNumber := levelNumber;
      ClearCurrentLevel();
      AttachNew(GetLevelScene(levelNumber));
      if IsProceduralLevel(levelNumber) {
        var generator := GeneratorOf(currentLevelInstance);
        if generator.None? {
          errors := errors + [GeneratorNotFound];
        }
        queue.CallDeferred(Call.GenerateProcLevel(generator));
      }
      levelLoaded := levelLoaded + [levelNumber];
    }

    /** Loads the procedural scene whatever the number, to be generated from `seed`; emits no LevelLoaded. */
    method LoadLevelWithSeed(levelNumber: Int32, seed: Uint64)
      requires Valid()
      modifies this, queue
      ensures Valid()
      ensures currentLevelNumber == levelNumber && lastProceduralSeed == old(lastProceduralSeed)
      ensures currentLevelInstance != null && fresh(currentLevelInstance)
      ensures currentLevelInstance.generator != null ==> fresh(currentLevelInstance.generator)
      ensures currentLevelInstance.topology == Procedural
      ensures currentLevelInstance.InstanceOf(proceduralLevelScene, prng, queue)
      ensures attached == old(attached) + [currentLevelInstance]
      ensures freed == old(freed) + Retired(old(currentLevelInstance))
      ensures levelLoaded == old(levelLoaded) && errors == old(errors)
      ensures queue.calls == old(queue.calls) +
        (match GeneratorOf(currentLevelInstance)
         case Some(generator) => [Call.LoadProcLevelWithSeed(generator, seed)]
         case None => [])
    {
      currentLevelNumber := levelNumber;
      ClearCurrentLevel();
      AttachNew(Procedural);
      var generator := GeneratorOf(currentLevelInstance);
      if generator.Some? {
        queue.CallDeferred(Call.LoadProcLevelWithSeed(generator.value, seed));
      }
    }

    /**
     * A procedural level is re-instantiated and queued for regeneration from
     * the last seed; any other level is loaded again as by LoadLevel.
     */
    method RetryCurrentLevel()
      requires Valid()
      modifies this, queue
      ensures Valid()
      ensures currentLevelNumber == old(currentLevelNumber) && lastProceduralSeed == old(lastProceduralSeed)
      ensures currentLevelInstance != null && fresh(currentLevelInstance)
      ensures currentLevelInstance.generator != null ==> fresh(currentLevelInstance.generator)
      ensures currentLevelInstance.topology == GetLevelScene(currentLevelNumber)
      ensures currentLevelInstance.InstanceOf(SceneFor(GetLevelScene(currentLevelNumber)), prng, queue)
      ensures attached == old(attached) + [currentLevelInstance]
      ensures freed == old(freed) + Retired(old(currentLevelInstance))
      ensures IsProceduralLevel(currentLevelNumber) ==>
        && queue.calls == old(queue.calls) + [Call.RetryProcLevel(GeneratorOf(currentLevelInstance))]
        && levelLoaded == old(levelLoaded)
        && errors == old(errors) + (if currentLevelInstance.generator == null then [GeneratorNotFound] else [])
      ensures !IsProceduralLevel(currentLevelNumber) ==>
        && queue.calls == old(queue.calls)
        && levelLoaded == old(levelLoaded) + [currentLevelNumber]
        && errors == old(errors)
    {
      if IsProceduralLevel(currentLevelNumber) {
        ClearCurrentLevel();
        AttachNew(Procedural);
        var generator := GeneratorOf(currentLevelInstance);
        if generator.None? {
          errors := errors + [GeneratorNotFound];
        }
        queue.CallDeferred(Call.RetryProcLevel(generator));
      } else {
        LoadLevel(currentLevelNumber);
      }
    }

    /** `_currentLevelNumber++` (a C# `int`), then LoadLevel on the new number. */
    method LoadNextLevel()
      requires Valid()
      modifies this, queue
      ensures Valid()
      ensures currentLevelNumber == Increment32(old(currentLevelNumber))
      ensures lastProceduralSeed == old(lastProceduralSeed)
      ensures currentLevelInstance != null && fresh(currentLevelInstance)
      ensures currentLevelInstance.generator != null ==> fresh(currentLevelInstance.generator)
      ensures currentLevelInstance.topology == GetLevelScene(currentLevelNumber)
      ensures currentLevelInstance.InstanceOf(SceneFor(GetLevelScene(currentLevelNumber)), prng, queue)
      ensures attached == old(attached) + [currentLevelInstance]
      ensures freed == old(freed) + Retired(old(currentLevelInstance))
      ensures levelLoaded == old(levelLoaded) + [currentLevelNumber]
      ensures queue.calls == old(queue.calls) +
        (if IsProceduralLevel(currentLevelNumber) then [Call.GenerateProcLevel(GeneratorOf(currentLevelInstance))] else [])
      ensures errors == old(errors) +
        (if IsProceduralLevel(currentLevelNumber) && currentLevelInstance.generator == null then [GeneratorNotFound] else [])
    {
      currentLevelNumber := Increment32(currentLevelNumber);
      LoadLevel(currentLevelNumber);
    }

    /** The generator that the oldest queued call acts on, if any. */
    function HeadTarget(): set<LevelGenerator>
      reads this, queue
    {
      if queue.calls != [] && Target(queue.calls[0]).Some? then {Target(queue.calls[0]).value} else {}
    }

    /**
     * One step of the engine's deferred-call queue: the oldest call is taken
     * off and run. `randi` is what `GD.Randi()` returns during the step and
     * `space` the world's direct space state (`None` while it is null).
     */
    method RunDeferred(randi: Uint32, space: Option<SpaceState>) returns (ran: Option<Call<LevelGenerator>>)
      requires Valid()
      modifies this, queue, HeadTarget()
      ensures Valid()
      ensures ran == (if old(queue.calls) == [] then None else Some(old(queue.calls)[0]))
      ensures currentLevelInstance == old(currentLevelInstance) && currentLevelNumber == old(currentLevelNumber)
      ensures attached == old(attached) && freed == old(freed) && levelLoaded == old(levelLoaded)
      ensures ran.None? ==> queue.calls == [] && lastProceduralSeed == old(lastProceduralSeed) && errors == old(errors)
      ensures ran.Some? && Target(ran.value).None? ==>
        && queue.calls == old(queue.calls)[1..]
        && lastProceduralSeed == old(lastProceduralSeed)
        && errors == old(errors) + [NullGeneratorCall]
      ensures ran.Some? && ran.value.GenerateProcLevel? && ran.value.procTarget.Some? ==>
        var g := ran.value.procTarget.value;
        && g.State() == Reseeded(old(g.State()), g.prng, randi)
        && lastProceduralSeed == g.currentSeed == randi
        && queue.calls == old(queue.calls)[1..] + [Call.SpawnMobs(g)]
        && errors == old(errors)
      ensures ran.Some? && ran.value.LoadProcLevelWithSeed? ==>
        var g := ran.value.seededTarget;
        && g.State() == Reseeded(old(g.State()), g.prng, ran.value.seed)
        && lastProceduralSeed == g.currentSeed == ran.value.seed
        && queue.calls == old(queue.calls)[1..] + [Call.SpawnMobs(g)]
        && errors == old(errors)
      ensures ran.Some? && ran.value.RetryProcLevel? && ran.value.retryTarget.Some? ==>
        var g := ran.value.retryTarget.value;
        && g.State() == Reseeded(old(g.State()), g.prng, old(lastProceduralSeed))
        && lastProceduralSeed == old(lastProceduralSeed)
        && queue.calls == old(queue.calls)[1..] + [Call.SpawnMobs(g)]
        && errors == old(errors)
      ensures ran.Some? && ran.value.SpawnMobs? ==>
        var g := ran.value.spawner;
        && g.State() == Spawned(old(g.State()), g.prng, g.config, space)
        && lastProceduralSeed == old(lastProceduralSeed)
        && queue.calls == old(queue.calls)[1..]
        && errors == old(errors)
    {
      ran := queue.Pop();
      if ran.None? {
        return;
      }
      match ran.value {
        case GenerateProcLevel(target) =>
          if target.None? {
            errors := errors + [NullGeneratorCall];
          } else {
            GenerateProcLevel(target.value, randi);
          }
        case LoadProcLevelWithSeed(generator, seed) =>
          LoadProcLevelWithSeed(generator, seed);
        case RetryProcLevel(target) =>
          if target.None? {
            errors := errors + [NullGeneratorCall];
          } else {
            RetryProcLevel(target.value);
          }
        case SpawnMobs(generator) =>
          var _, _ := generator.SpawnMobs(space);
      }
    }

    /** The deferred step LoadLevel queues: generate from a fresh seed and record it. */
    method GenerateProcLevel(generator: LevelGenerator, randi: Uint32)
      requires Valid() && generator.queue == queue
      modifies this`lastProceduralSeed, generator, queue
      ensures Valid()
      ensures generator.State() == Reseeded(old(generator.State()), generator.prng, randi)
      ensures lastProceduralSeed == generator.currentSeed == randi
      ensures queue.calls == old(queue.calls) + [Call.SpawnMobs(generator)]
    {
      generator.GenerateLevel(randi);
      lastProceduralSeed := generator.GetCurrentSeed();
    }

    /** The deferred step LoadLevelWithSeed queues: generate from the given seed and record it. */
    method LoadProcLevelWithSeed(generator: LevelGenerator, seed: Uint64)
      requires Valid() && generator.queue == queue
      modifies this`lastProceduralSeed, generator, queue
      ensures Valid()
      ensures generator.State() == Reseeded(old(generator.State()), generator.prng, seed)
      ensures lastProceduralSeed == generator.currentSeed == seed
      ensures queue.calls == old(queue.calls) + [Call.SpawnMobs(generator)]
    {
      generator.GenerateLevelWithSeed(seed);
      lastProceduralSeed := seed;
    }

    /** The deferred step RetryCurrentLevel queues: generate again from the seed recorded when it runs. */
    method RetryProcLevel(generator: LevelGenerator)
      requires Valid() && generator.queue == queue
      modifies generator, queue
      ensures Valid()
      ensures generator.State() == Reseeded(old(generator.State()), generator.prng, lastProceduralSeed)
      ensures queue.calls == old(queue.calls) + [Call.SpawnMobs(generator)]
    {
      generator.GenerateLevelWithSeed(lastProceduralSeed);
    }
  }

  // ---------------------------------------------------------------------------
  // Whole sequences of calls, as the game makes them

  /**
   * A fresh procedural level: LoadLevel, then the deferred generation, then
   * the deferred spawn pass. The seed recorded is the drawn one, the mobs are
   * those the seed implies, and over solid ground with the default settings
   * there are exactly ten of them.
   */
  method LoadProceduralLevel(m: LevelManager, levelNumber: Int32, randi: Uint32, space: SpaceState)
      returns (children: seq<Child>)
    requires m.Valid() && m.queue.calls == []
    requires IsProceduralLevel(levelNumber) && m.proceduralLevelScene.generator.Some?
    modifies m, m.queue
    ensures m.Valid() && m.queue.calls == []
    ensures m.currentLevelNumber == levelNumber && m.GetLastSeed() == randi
    ensures var t := m.proceduralLevelScene.generator.value;
      children == OtherChildren(t.children) + MobNodes(Placements(m.prng, t.config, space, m.prng.seeded(randi)).placed)
    ensures var t := m.proceduralLevelScene.generator.value;
      t.config == DefaultConfig && (forall o, e :: space(o, e).Some?) ==>
        |children| == |OtherChildren(t.children)| + 10
  {
    m.LoadLevel(levelNumber);
    var generator := m.currentLevelInstance.generator;
    var _ := m.RunDeferred(randi, Some(space));
    var _ := m.RunDeferred(randi, Some(space));
    children := generator.children;
    var t := m.proceduralLevelScene.generator.value;
    if t.config == DefaultConfig && (forall o, e :: space(o, e).Some?) {
      SolidGroundPlacesAll(m.prng, t.config, space, m.prng.seeded(randi));
    }
  }

  /**
   * Retry fidelity: a procedural level loaded with a seed and populated, then
   * retried and populated again, gets exactly the same children both times,
   * given that both passes probe the same space.
   */
  method SeededLevelRetry(m: LevelManager, levelNumber: Int32, seed: Uint64, randi: Uint32, space: SpaceState)
      returns (first: seq<Child>, second: seq<Child>)
    requires m.Valid() && m.queue.calls == []
    requires IsProceduralLevel(levelNumber) && m.proceduralLevelScene.generator.Some?
    modifies m, m.queue
    ensures m.Valid() && m.queue.calls == []
    ensures m.currentLevelNumber == levelNumber && m.GetLastSeed() == seed
    ensures first == second
    ensures var t := m.proceduralLevelScene.generator.value;
      first == OtherChildren(t.children) + MobNodes(Placements(m.prng, t.config, space, m.prng.seeded(seed)).placed)
  {
    m.LoadLevelWithSeed(levelNumber, seed);
    var firstGenerator := m.currentLevelInstance.generator;
    var _ := m.RunDeferred(randi, Some(space));
    var _ := m.RunDeferred(randi, Some(space));
    first := firstGenerator.children;
    m.RetryCurrentLevel();
    var secondGenerator := m.currentLevelInstance.generator;
    var _ := m.RunDeferred(randi, Some(space));
    var _ := m.RunDeferred(randi, Some(space));
    second := secondGenerator.children;
  }

  /**
   * Retry fidelity for a level loaded with LoadLevel once no deferred call is
   * pending: a procedural level loaded and populated, then retried and
   * populated again, gets exactly the same children, whatever `GD.Randi()`
   * returns during the retry. Both passes probe the same space.
   */
  method FreshLevelRetry(m: LevelManager, levelNumber: Int32, randi: Uint32, randi2: Uint32, space: SpaceState)
      returns (first: seq<Child>, second: seq<Child>)
    requires m.Valid() && m.queue.calls == []
    requires IsProceduralLevel(levelNumber) && m.proceduralLevelScene.generator.Some?
    modifies m, m.queue
    ensures m.Valid() && m.queue.calls == []
    ensures m.currentLevelNumber == levelNumber && m.GetLastSeed() == randi
    ensures first == second
    ensures var t := m.proceduralLevelScene.generator.value;
      second == OtherChildren(t.children) + MobNodes(Placements(m.prng, t.config, space, m.prng.seeded(randi)).placed)
  {
    first := LoadProceduralLevel(m, levelNumber, randi, space);
    m.RetryCurrentLevel();
    var generator := m.currentLevelInstance.generator;
    var _ := m.RunDeferred(randi2, Some(space));
    var _ := m.RunDeferred(randi2, Some(space));
    second := generator.children;
  }

  /**
   * The game's first start: `_Ready` loads level 0 and queues its generation,
   * which runs and queues a spawn pass for the level-0 generator. Level 1 is
   * loaded while that pass is still pending; then the queue drains. The seed
   * recorded is the one drawn for level 1, and the level-1 generator holds
   * the scene's non-`Node3D` children plus the mobs that seed implies.
   */
  method FirstStartLevel(proceduralLevelScene: SceneConfig, bossLevel1Scene: SceneConfig, hubWorldScene: SceneConfig,
                         prng: Prng, randi0: Uint32, randi1: Uint32, space: SpaceState)
      returns (m: LevelManager, children: seq<Child>)
    requires proceduralLevelScene.generator.Some?
    ensures m.Valid() && m.queue.calls == []
    ensures m.currentLevelNumber == 1 && m.GetLastSeed() == randi1
    ensures var t := proceduralLevelScene.generator.value;
      children == OtherChildren(t.children) + MobNodes(Placements(prng, t.config, space, prng.seeded(randi1)).placed)
  {
    m := new LevelManager(proceduralLevelScene, bossLevel1Scene, hubWorldScene, prng);
    var level0: LevelGenerator := m.currentLevelInstance.generator;
    var _ := m.RunDeferred(randi0, Some(space));
    assert m.queue.calls == [Call.SpawnMobs(level0)];
    m.LoadLevel(1);
    var level1: LevelGenerator := m.currentLevelInstance.generator;
    var t := proceduralLevelScene.generator.value;
    assert level1.prng == prng && level1.config == t.config && level1.children == t.children;
    assert m.queue.calls == [Call.SpawnMobs(level0), Call.GenerateProcLevel(Some(level1))];
    ghost var loaded := level1.State();
    var _ := m.RunDeferred(randi1, Some(space));
    assert m.queue.calls == [Call.GenerateProcLevel(Some(level1))] && level1.State() == loaded;
    PopulatePending(m, level1, randi1, space);
    children := level1.children;
  }

  /** The two deferred steps of a pending generation: reseed from `randi`, then one spawn pass. */
  method PopulatePending(m: LevelManager, generator: LevelGenerator, randi: Uint32, space: SpaceState)
    requires m.Valid() && generator.queue == m.queue
    requires m.queue.calls == [Call.GenerateProcLevel(Some(generator))]
    modifies m, m.queue, generator
    ensures m.Valid() && m.queue.calls == [] && m.GetLastSeed() == randi
    ensures m.currentLevelNumber == old(m.currentLevelNumber)
    ensures generator.children ==
      OtherChildren(old(generator.children)) + MobNodes(Placements(generator.prng, generator.config, space, generator.prng.seeded(randi)).placed)
  {
    var _ := m.RunDeferred(randi, Some(space));
    assert m.queue.calls == [Call.SpawnMobs(generator)];
    var _ := m.RunDeferred(randi, Some(space));
  }

  /**
   * LoadLevelWithSeed with level number 5 instantiates the procedural scene,
   * but a retry decides by the number and loads the hub instead.
   */
  method SeededHubNumberRetry(m: LevelManager, seed: Uint64)
    requires m.Valid()
    modifies m, m.queue
    ensures m.currentLevelNumber == 5 && m.currentLevelInstance != null
    ensures m.currentLevelInstance.topology == Hub
    ensures |m.attached| == |old(m.attached)| + 2 && m.attached[|m.attached| - 2].topology == Procedural
  {
    m.LoadLevelWithSeed(5, seed);
    m.RetryCurrentLevel();
  }
}
