# Vilse level and experience core, in Dafny

Vilse is a Godot game. Its game-logic core is three nodes:

- **LevelManager** (`LevelManager.cs`) owns the level lifecycle. It keeps:
  - the current level number;
  - at most one live level instance;
  - the seed of the last procedural generation.

  Level 5 is the hub and level 8 the first boss level. Every other number is a procedural level. Each load frees the current instance and instantiates a new scene. A procedural level is populated later, by a deferred call, and the seed is recorded only when that call runs.
- **LevelGenerator** (`levels/LevelGenerator.cs`) reseeds its own RNG, frees its `Node3D` children and queues a spawn pass. The spawn pass draws candidate points in the spawn rectangle and probes the ground under each one with a vertical ray. It places a mob at every hit. It stops after `MobCount` mobs or `3 * MobCount` attempts, whichever comes first, and warns when it falls short.
- **XPManager** (`XPManager.cs`) adds experience and levels up while the experience reaches the threshold. Each level-up spends the threshold and multiplies it by `XpScaling`, rounded.

The engine services the core calls appear as follows:

- **The deferred-call queue** (`CallDeferred`) is a FIFO queue object, `Deferred.DeferredQueue`. The manager and every generator share it. `LevelManager.RunDeferred` takes the oldest call off the queue and runs it.
- **The RNG** is a `Random.Prng`: a pair of pure functions. One gives the state that a seed implies. The other draws `RandfRange(lo, hi)` and gives the next state. Its range promise, that a draw lands between the two bounds in either order (as `from + randf() * (to - from)` does), is the predicate `DrawsInRange`.
- **The ray query** `IntersectRay` is an oracle `World.SpaceState` from a ray to an optional hit point. Its soundness is the predicate `HitsOnRay`.
- **The physics space** is `Option<SpaceState>` and is `None` while the direct space state is null.
- **`GD.Randi()`** is a parameter `randi`.
- **`QueueFree`** appends to a `freed` log.
- **Signals and log messages** (`LevelLoaded`, `XPGained`, `LevelUp`, the spawn report and the shortfall warning) are appended to event logs.

Each node is a class whose fields its methods update.

- The generator's and the experience manager's methods are proved against pure functions of the old state:
  - `Reseeded` and `Spawned` specify the generator's two steps.
  - `SpawnLoop` and `Placements` specify the attempt loop.
  - `LevelUps` specifies the level-up loop.
- The level manager's methods state their new state directly in their postconditions: the level number, the instance, the queued call, the signals and the seed.

Lemmas prove what the source promises about those functions. The methods `LoadProceduralLevel`, `FirstStartLevel`, `FreshLevelRetry`, `SeededLevelRetry` and `SeededHubNumberRetry` chain the manager's operations and deferred steps the way the game calls them, and state the end-to-end outcome.

### Behaviour of the code worth knowing

- **Retry decides by the level number.** `RetryCurrentLevel` looks at the number, not at the scene loaded. `LoadLevelWithSeed(5, s)` instantiates the procedural scene, and a retry then loads the hub (`SeededHubNumberRetry`).
- **A procedural retry emits no `LevelLoaded`.** A fixed-level retry goes through `LoadLevel` and does emit one.
- **`LoadLevelWithSeed` emits no `LevelLoaded` at all.**
- **Freeing is deferred.** `QueueFree` only schedules deletion, so the old instance is still in the container when the new one is added. The model records both in `attached` and `freed`.
- **`GenerateProcLevel` and `RetryProcLevel` assume the generator exists.** `LoadLevel` and `RetryCurrentLevel` look it up with `GetNode` (`LevelManager.cs:31`, `LevelManager.cs:70`), which reports an error and yields null when the node is missing. The deferred call then receives null. The model records `GeneratorNotFound` at the lookup and `NullGeneratorCall` when the deferred call runs.
- **`StartNewLevel` prints the seed too early.** In `Main.cs:39-40` it prints `GetLastSeed()` right after `LoadLevel`, before the deferred generation has recorded the new seed. It therefore prints the previous seed. `Main.cs` is not part of this model. `LevelManager.LoadLevel`'s contract, `lastProceduralSeed == old(lastProceduralSeed)`, shows the effect.

## Model

| member | source | states |
|---|---|---|
| Ints.Wrap32 | levels/LevelGenerator.cs:76 | the C# `int` result of `MobCount * 3`: equal to the product when it fits, and congruent to it modulo 2^32 always |
| Ints.Increment32 | LevelManager.cs:82 | `_currentLevelNumber++` is one more, except that `int.MaxValue` wraps to `int.MinValue` |
| Deferred.DeferredQueue.CallDeferred | LevelManager.cs:32 | a deferred call goes to the back of the queue |
| Deferred.DeferredQueue.Pop | LevelManager.cs:32 | the oldest queued call is the next to run, and it leaves the queue; an empty queue yields nothing |
| LevelGeneration.ClearPartitionsChildren | levels/LevelGenerator.cs:32-35 | clearing splits the children into kept and freed, losing and duplicating none; a child is freed exactly when it is a `Node3D` |
| LevelGeneration.MaxAttempts | levels/LevelGenerator.cs:76 | the attempt budget, the C# `int` product `MobCount * 3`, is exactly `3 * MobCount` when `0 <= MobCount <= int.MaxValue / 3` |
| LevelGeneration.TryOnce | levels/LevelGenerator.cs:39-51 | an attempt probes the vertical ray through the drawn (x, z) from `RaycastHeight` down to `-RaycastHeight`; with an in-range RNG and a sound probe every hit lies above the rectangle the two spawn corners span, in whatever order they are given, within the probed height |
| LevelGeneration.PlacementBounds | levels/LevelGenerator.cs:75-82 | the loop ends within `max(0, 3 * MobCount)` attempts, with no more mobs than attempts and at most `max(0, MobCount)` mobs; it stops only when the target is met or the budget is spent |
| LevelGeneration.PlacedInsideArea | levels/LevelGenerator.cs:39-54 | with an in-range RNG and a sound probe, every accepted position lies above the rectangle the two spawn corners span, in whatever order, within the probed height |
| LevelGeneration.NoGroundPlacesNothing | levels/LevelGenerator.cs:78-82 | when no probe ever hits, no mob is placed and the whole budget is spent |
| LevelGeneration.SolidGroundPlacesAll | levels/LevelGenerator.cs:78-82 | when every probe hits and `0 <= MobCount <= int.MaxValue / 3`, exactly `MobCount` mobs are placed with `MobCount` attempts |
| LevelGeneration.Reseeded | levels/LevelGenerator.cs:21-28 | after reseeding, the seed is the given one and the RNG is in the state the seed implies; no `Node3D` child remains, every other child stays, nothing is lost, and the generation is logged |
| LevelGeneration.SpawnedEffects | levels/LevelGenerator.cs:66-86 | a spawn pass keeps the seed and the freed nodes, only appends children and all of them are mobs; with a null space state it changes only the log; otherwise it warns exactly when fewer than `MobCount` mobs were added |
| LevelGeneration.SeedDeterminesPass | levels/LevelGenerator.cs:21-82 | after a reseed with a seed, the mobs a spawn pass adds and the RNG state it leaves depend only on the seed, the settings and the probe, not on the generator's earlier state |
| LevelGeneration.LevelGenerator.constructor | levels/LevelGenerator.cs:6-13 | a new generator has the scene's settings and children, seed 0, nothing freed and an empty log |
| LevelGeneration.LevelGenerator.GenerateLevel | levels/LevelGenerator.cs:15-19 | the seed becomes the drawn 32-bit value, then the generator behaves as `GenerateLevelWithSeed` with it |
| LevelGeneration.LevelGenerator.GenerateLevelWithSeed | levels/LevelGenerator.cs:21-28 | the new state is `Reseeded` of the old one, `GetCurrentSeed()` then returns the seed, and exactly one spawn pass is queued |
| LevelGeneration.LevelGenerator.GetCurrentSeed | levels/LevelGenerator.cs:30 | returns the stored seed; `GenerateLevelWithSeed` and `GenerateLevel` state what that seed is after they run |
| LevelGeneration.LevelGenerator.ClearMobs | levels/LevelGenerator.cs:32-35 | the children become the non-`Node3D` ones in order, the `Node3D` ones are handed to `QueueFree` in order, and nothing else changes |
| LevelGeneration.LevelGenerator.TrySpawnMobAtRandomPosition | levels/LevelGenerator.cs:37-64 | the RNG advances by the two draws; a mob is added at the hit point exactly when the probe hits; nothing else changes |
| LevelGeneration.LevelGenerator.PlaceMobs | levels/LevelGenerator.cs:75-82 | the attempt loop's counters and appended mobs are exactly those of `Placements` from the current RNG state |
| LevelGeneration.LevelGenerator.SpawnMobs | levels/LevelGenerator.cs:66-86 | the new state is `Spawned` of the old one, and the returned counters are those of `Placements`, or zero when the space state is null |
| LevelManagement.GetLevelScene | LevelManager.cs:86-94 | level 5 resolves to the hub, level 8 to the first boss level, and each only there; every other number is procedural |
| LevelManagement.IsProceduralLevel | LevelManager.cs:96-104 | true exactly when the level's scene is the procedural one, that is for every number other than 5 and 8 |
| LevelManagement.LevelInstance.Instantiate | LevelManager.cs:26 | an instance of a scene has the scene's generator node exactly when the scene has one, fresh and untouched, on the shared queue |
| LevelManagement.LevelManager.constructor | LevelManager.cs:14-18 | `_Ready` loads level 0: the procedural scene is current, `LevelLoaded(0)` is emitted, one generation is queued, and the missing-generator error is recorded exactly when the scene has no generator |
| LevelManagement.LevelManager.GetLastSeed | LevelManager.cs:78 | returns the recorded seed; `GenerateProcLevel` and `LoadProcLevelWithSeed` state what that seed is after they run, and `LoadProceduralLevel` and `FreshLevelRetry` state it end to end |
| LevelManagement.LevelManager.ClearCurrentLevel | LevelManager.cs:106-113 | the current instance, if any, is handed to `QueueFree` and the slot is empty; a second call frees nothing more |
| LevelManagement.LevelManager.AttachNew | LevelManager.cs:25-27 | a fresh instance of the scene is added to the container and becomes the only live instance |
| LevelManagement.LevelManager.LoadLevel | LevelManager.cs:20-36 | the number is set, the old instance is retired and a new one of the number's scene is current, the seed is untouched, `LevelLoaded(n)` is emitted, and a generation is queued exactly when the level is procedural |
| LevelManagement.LevelManager.LoadLevelWithSeed | LevelManager.cs:38-48 | whatever the number, the procedural scene is instantiated and a seeded generation is queued exactly when its generator exists; no `LevelLoaded` is emitted and the seed is not yet recorded |
| LevelManagement.LevelManager.RetryCurrentLevel | LevelManager.cs:62-74 | number and seed are unchanged; a procedural level is re-instantiated and queued for regeneration without `LevelLoaded`; any other level is loaded as by `LoadLevel` |
| LevelManagement.LevelManager.LoadNextLevel | LevelManager.cs:80-84 | the number is incremented (as a C# `int`) and the result is that of `LoadLevel` on the new number |
| LevelManagement.LevelManager.RunDeferred | LevelManager.cs:50-76 | the oldest queued call runs: a generation records its seed (the drawn one, the given one, or none for a retry) and queues one spawn pass; a spawn pass is `Spawned`; a call on a missing generator is reported; nothing else changes |
| LevelManagement.LevelManager.GenerateProcLevel | LevelManager.cs:50-54 | the generator is reseeded from the drawn value and the recorded seed equals the generator's current seed |
| LevelManagement.LevelManager.LoadProcLevelWithSeed | LevelManager.cs:56-60 | the generator is reseeded from the given seed, which becomes the recorded seed |
| LevelManagement.LevelManager.RetryProcLevel | LevelManager.cs:76 | the generator is reseeded from exactly the recorded seed |
| LevelManagement.LoadProceduralLevel | LevelManager.cs:20-54 | after loading a procedural level and running both deferred steps, the recorded seed is the drawn one and the level's children are its scene's non-`Node3D` children plus the mobs the seed implies; with the default settings over solid ground there are ten mobs |
| LevelManagement.FreshLevelRetry | LevelManager.cs:20-76 | a procedural level loaded with `LoadLevel` and populated, then retried and populated again, gets the same children both times: the scene's non-`Node3D` children plus the mobs the first drawn seed implies, which stays the recorded seed |
| LevelManagement.FirstStartLevel | LevelManager.cs:14-54 | the game's first start: level 0 is loaded and generated, level 1 is loaded while level 0's spawn pass is still queued (`Main.cs:25`, `Main.cs:39`), and once the queue drains the recorded seed is the one drawn for level 1 and level 1's generator holds the scene's non-`Node3D` children plus the mobs that seed implies |
| LevelManagement.SeededLevelRetry | LevelManager.cs:38-76 | a procedural level loaded with a seed, populated, then retried and populated again has the same children both times |
| LevelManagement.SeededHubNumberRetry | LevelManager.cs:62-73 | after `LoadLevelWithSeed(5, s)` a retry loads the hub scene, not the procedural one |
| Experience.RoundToInt | XPManager.cs:24 | the result is within one half of the input, and a tie goes to the even neighbour |
| Experience.NextThreshold | XPManager.cs:24 | a positive threshold scaled by more than one half stays positive, and scaled by at least one it does not shrink |
| Experience.LevelUpsSettles | XPManager.cs:10-28 | for a positive threshold and a scaling above one half, the loop ends below a positive threshold; the starting XP equals the final XP plus the thresholds spent; the level rises by one per threshold; non-negative XP stays non-negative; no level-up happens, and nothing changes, exactly when the XP starts below the threshold |
| Experience.ThresholdChain | XPManager.cs:16-24 | for a positive threshold and a scaling above one half, the thresholds spent start with the current one, each next one is the scaled previous one, and the final threshold is the scaled last one |
| Experience.XPManager.constructor | XPManager.cs:5-8 | a new manager has XP 0, level 1, threshold 100 and scaling 1.5 |
| Experience.XPManager.AddXp | XPManager.cs:10-17 | the XP is added and `XPGained` is emitted with the new total; the final state is that of `LevelUps`, which ends with the XP below the threshold; one `LevelUp` signal per level, in order |
| Experience.XPManager.ProcessLevelUp | XPManager.cs:19-28 | one level-up spends the threshold, adds a level, scales the threshold, and signals the new level |
| Experience.XPManager.GetXPProgress | XPManager.cs:30-33 | the progress is below 1 exactly when the XP is below the threshold, and non-negative exactly when the XP is |
| Experience.XPManager.Reset | XPManager.cs:35-41 | XP 0, level 1 and threshold 100, whatever the state was; the scaling is kept and no signal is emitted |

## Left out

- **Float arithmetic.**
  - `RandfRange` values, positions and `RaycastHeight` are exact reals, not 32-bit floats.
  - The RNG's algorithm (PCG) is not modelled. Any pair of pure functions stands in for it, and only determinism and the range promise are assumed.
- **`IntersectRay` collision details.** The collision mask, the physics bodies and which body is hit are folded into the oracle `SpaceState`.
- **Deletion timing.** `QueueFree` deletes at the end of the frame. The model takes the freed children out of the generator at once and logs them. It does not model when deleted nodes stop being children, or `Node.IsQueuedForDeletion`.
- **What a mob does after placement.**
  - `Mob.Initialize` turns the mob towards the player and draws its yaw jitter and speed from the global `GD.RandRange` (`Mob.cs:41-43`). These are not seed-reproducible and are not modelled. A placed mob is only its position.
  - The player lookup (`GetFirstNodeInGroup`) is not modelled.
  - `MobScene` is assumed to instantiate a `Mob`.
- **Engine wiring.** The `_levelContainer` lookup in `_Ready` and `GetWorld3D()` are not modelled. `AddChild` on the container is recorded only as the `attached` log, not as a scene tree. The physics space is a parameter.
- **Log and print text.** The generator's messages are recorded by their figures, not their wording: the seed generated, the spawn report and the shortfall warning. The manager's engine errors are recorded the same way. The three `GD.Print` calls of `XPManager.cs` (lines 14, 27 and 40) are not recorded; the model logs its `XPGained` and `LevelUp` signals only.
- LevelManagement.SeededLevelRetry: assumes both spawn passes get the same probe answers, because one `SpaceState` answers every ray of both passes. In the game each placed mob is a physics body added before the next ray is cast, the retired instance still holds its mobs until the end of the frame, and the player moves. Whether those bodies are on the ground's collision layer depends on scenes that are not part of this model. Retry fidelity is proved only under that assumption.
- LevelManagement.FreshLevelRetry: makes the same assumption as `SeededLevelRetry`: the mobs already placed, the retired instance still awaiting deletion and the player do not change what a ray hits, so both passes get the same probe answers. It also starts with no deferred call pending; the game's first start, where a spawn pass for the level-0 generator is still queued when level 1 loads, is stated separately by `FirstStartLevel`. Retry fidelity is proved only under these assumptions.
- **Other nodes.** `Player.cs`, `Mob.cs`, `Main.cs` and the UI scripts are not part of this model.
- Experience.XPManager.AddXp: requires a positive threshold and a scaling above one half. The source has no such guard. With a scaling at or below one half, a threshold can round to 0 (threshold 1 at scaling 0.5 gives `RoundToInt(0.5) == 0`), and from then on the loop never ends.
- Experience.XPManager.AddXp: XP, level and threshold are unbounded integers. The C# `int` overflow of very large amounts, and the float product in `XPToNextLevel * XpScaling`, are not modelled.
- Experience.XPManager.GetXPProgress: requires a positive threshold. The source divides floats, and a zero threshold gives infinity or NaN, which the model leaves out.
- Experience.NextThreshold: computes `XPToNextLevel * XpScaling` exactly over the reals before rounding. The 32-bit float product can round differently for large thresholds.
