# Hazard lifecycles and freeze/resume, modelled in Dafny

This project models the hazards of a Unity platformer level and the
freeze mechanic that stops them for a while.

The hazards modelled are:
- falling platforms and the spawner that produces them;
- falling spikes;
- vanishing platforms;
- moving platforms;
- updrafts;
- rotating fans;
- electric fields;
- the generators that switch devices on and off.

A freeze is an external `Freeze(duration)` call, made by a projectile in
the game. A hazard that is bound to a spawner pauses that spawner while it
is frozen and resumes it when it thaws.

Time is counted in whole ticks. One tick runs, in order:
1. every coroutine, advanced to its next yield;
2. every delayed `Invoke` call that was due when the tick began;
3. `FixedUpdate`, if the object is still alive.

The engine's probes are boolean inputs of a tick: BoxCast and Raycast hits,
contacts, and "the player is below". A delayed call is the number of ticks
it still has to wait (`Engine.Advance`). A hazard's calls on its spawner are
a sequence of `Pause`/`Resume` signals. The spawner's flag after such a
sequence is `Engine.After`: the last call decides.

Every source file gets its own module:

| module | source | file |
|---|---|---|
| `Engine` | (shared vocabulary: signals, delayed calls, n-tick runs) | engine.dfy |
| `Spawning` | PlatformSpawner.cs, FallingPlatform.cs | spawning.dfy |
| `Spikes` | FallingSpike.cs | falling_spike.dfy |
| `Vanishing` | VanishingPlatform.cs | vanishing_platform.dfy |
| `Moving` | MovingPlatform.cs | moving_platform.dfy |
| `Updrafts` | Updraft.cs | updraft.dfy |
| `Fans` | RotatingFan.cs | rotating_fan.dfy |
| `Electric` | ElectricField.cs | electric_field.dfy |
| `Generators` | Generator.cs | generator.dfy |
| `Coordination` | several hazards sharing one spawner | freeze_coordination.dfy |
| `Circuits` | a generator's events wired to devices | circuits.dfy |

Each hazard appears twice:

- **As a value.** A datatype holds the object's state, and pure functions
  give each of its operations. The invariant (`ValidX`) and the lemmas are
  stated over these values.
- **As a class.** Its fields are the source's fields. Each method changes
  them in place and ensures `State() == F(old(State()))`, where `F` is the
  matching pure function. A hazard with a bound spawner also ensures
  `mySpawner.canSpawn == After(old(mySpawner.canSpawn), <signals sent>)`.

## Behaviour of the code worth knowing

- **The spawner's pause is a boolean, not a count.**
  - PlatformSpawner.cs:107-117 sets and clears a boolean.
  - `Coordination.TwoSpikesShareSpawner` shows the consequence: the first
    hazard to thaw resumes production while another hazard is still frozen.
  - A counted pause is given only as a separate variant
    (`Coordination.CountedPauseTracksFrozen`).
- **An Updraft can be switched while frozen.** `TurnOn`/`TurnOff` take
  effect while it is frozen (Updraft.cs:27-37); only the visuals wait for
  the thaw. ElectricField and Generator have no freeze at all.
- **A spike's contact kill is not gated on the freeze.**
  - A frozen spike still kills a player who touches it (FallingSpike.cs:135-146).
  - A falling spike's lifetime restarts in full on thaw (FallingSpike.cs:197-200).
- **A destroy callback can fire twice.**
  - A FallingPlatform that lands raises `OnDestroyed` twice (FallingPlatform.cs:73-87).
  - Its lifetime destruction is not stopped by a freeze (FallingPlatform.cs:29-32).
  - A frozen spike or moving platform that is destroyed calls
    `ResumeSpawning` twice: once in `DestroySpike`/`DestroyPlatform`, once in
    `OnDestroy`. The flag ends up the same either way.
- **Re-freezing behaves differently per hazard.**
  - RotatingFan restarts its freeze on every hit (RotatingFan.cs:38-47).
  - FallingPlatform queues one more `Unfreeze` per hit (FallingPlatform.cs:50-61).
  - The other hazards ignore a freeze while frozen.

## Model

| member | source | states |
|---|---|---|
| Engine.After | Assets/Scripts/PlatformSpawner.cs:107-117 | after a batch of Pause/Resume calls, the spawner's flag is the last call's value (unchanged for an empty batch) |
| Engine.AfterConcat | Assets/Scripts/PlatformSpawner.cs:107-117 | receiving two batches of calls one after the other is receiving their concatenation |
| Engine.Advance | Assets/Scripts/FallingSpike.cs:179 | one tick on the pending delayed calls: the ones due leave the queue, so the queue keeps its length exactly when none is due, and none left is overdue |
| Engine.StillWaiting | Assets/Scripts/FallingSpike.cs:179 | the pending calls not due on the coming tick, in order; each still has more than one tick to wait |
| Engine.AdvanceCountsDown | Assets/Scripts/FallingSpike.cs:179 | after one tick exactly the calls still waiting are left, in order, each with one tick less to wait; when none is due every call is kept |
| Engine.AdvancePair | Assets/Scripts/FallingSpike.cs:179 | with one or two pending calls, which of them run on the coming tick and what is left of the others |
| Engine.TicksAdd | Assets/Scripts/FallingSpike.cs:79-92 | running m ticks and then n more is running m + n ticks, with the spawner calls concatenated |
| Engine.CountDown | Assets/Scripts/FallingSpike.cs:179 | if every tick of a countdown only decrements it, then j < k ticks from k quietly reach k - j |
| Engine.CountDownThen | Assets/Scripts/FallingSpike.cs:179 | ... and the k-th tick is the one the countdown takes from 1 |
| Spawning.StartPlatform | Assets/Scripts/FallingPlatform.cs:19-33 | Start sets the platform falling and schedules its destruction after `lifetime` exactly when lifetime > 0 |
| Spawning.UpdatePlatform | Assets/Scripts/FallingPlatform.cs:35-42 | the fall velocity is applied on a frame exactly when the platform is not frozen; nothing else changes |
| Spawning.FreezePlatform | Assets/Scripts/FallingPlatform.cs:50-61 | a no-op unless canBeFrozen; otherwise frozen, kinematic and stopped, with one more Unfreeze queued (no already-frozen guard); the lifetime destruction is untouched |
| Spawning.UnfreezePlatform | Assets/Scripts/FallingPlatform.cs:63-71 | unconditionally unfrozen, non-kinematic and falling; pending calls are untouched |
| Spawning.DestroyPlatformObject | Assets/Scripts/FallingPlatform.cs:84-87 | destroying a live platform raises OnDestroyed once through OnDestroy |
| Spawning.GroundContact | Assets/Scripts/FallingPlatform.cs:73-87 | Ground-layer contact destroys the platform and raises OnDestroyed twice; other contacts change nothing |
| Spawning.TickPlatform | Assets/Scripts/FallingPlatform.cs:29-42 | a destroyed platform's tick does nothing |
| Spawning.FreezesQueueUnfreezes | Assets/Scripts/FallingPlatform.cs:50-61 | k Freeze calls queue k Unfreeze calls and leave the platform frozen |
| Spawning.EarliestUnfreezeEndsFreeze | Assets/Scripts/FallingPlatform.cs:50-71 | with Unfreeze calls pending after a <= b ticks and no lifetime destruction due within a ticks, the platform is frozen for a-1 ticks and thawed after a; a second Freeze does not extend the first |
| Spawning.SingleUnfreezeEndsFreeze | Assets/Scripts/FallingPlatform.cs:50-71 | after a single Freeze of d ticks, with no lifetime destruction due within d ticks, the platform is frozen for d-1 ticks, unfrozen and alive after d, with nothing left pending |
| Spawning.FrozenPlatformTick | Assets/Scripts/FallingPlatform.cs:50-71 | one tick of a platform frozen by a single Freeze of d ticks keeps it alive, counts the Unfreeze down, and thaws it exactly when d = 1 |
| Spawning.LifetimeIgnoresFreeze | Assets/Scripts/FallingPlatform.cs:29-32 | a platform due to be destroyed in k ticks lives k-1 ticks and is destroyed on the k-th, raising OnDestroyed once, frozen or not |
| Spawning.SpawnerIteration | Assets/Scripts/PlatformSpawner.cs:44-69 | with canSpawn false or no prefab nothing changes; one-at-a-time mode fills a free slot; pool mode adds one to the count exactly when it is below maxPlatforms |
| Spawning.SpawnerSpawn | Assets/Scripts/PlatformSpawner.cs:71-100 | without a prefab nothing changes; otherwise the new platform takes the single slot in one-at-a-time mode or adds one to the count in pool mode; the loop state and canSpawn are kept |
| Spawning.SpawnerStart | Assets/Scripts/PlatformSpawner.cs:29-36 | StartSpawning on a running spawner is a no-op; otherwise the loop starts with one iteration |
| Spawning.SpawnerAutoStart | Assets/Scripts/PlatformSpawner.cs:21-27 | the spawner runs afterwards exactly when it ran or autoStart is set; without autoStart, or when already running, nothing changes; canSpawn is kept |
| Spawning.SpawnerStop | Assets/Scripts/PlatformSpawner.cs:38-42 | StopSpawning ends the loop and leaves the pause flag, the slot and the count as they were |
| Spawning.SpawnerTick | Assets/Scripts/PlatformSpawner.cs:44-69 | a paused spawner changes no counters; the loop waits spawnInterval between iterations whether paused or not |
| Spawning.LastPauseCallDecides | Assets/Scripts/PlatformSpawner.cs:107-117 | after any history of spawner events, canSpawn is decided by the last Pause/Resume call alone |
| Spawning.PausedSpawnerProducesNothing | Assets/Scripts/PlatformSpawner.cs:44-69 | a paused spawner spawns nothing until it is resumed, however its loop is started, stopped or ticked |
| Spawning.PoolCountBounded | Assets/Scripts/PlatformSpawner.cs:58-64 | in pool mode the counter never exceeds maxPlatforms |
| Spawning.FallingPlatform.constructor | Assets/Scripts/FallingPlatform.cs:11-16 | a new platform is unfrozen, not yet falling, alive and unsubscribed |
| Spawning.FallingPlatform.Subscribe | Assets/Scripts/PlatformSpawner.cs:83-87 | the spawner's OnPlatformDestroyed becomes the handler |
| Spawning.FallingPlatform.Start | Assets/Scripts/FallingPlatform.cs:19-33 | follows StartPlatform |
| Spawning.FallingPlatform.Update | Assets/Scripts/FallingPlatform.cs:35-42 | follows UpdatePlatform |
| Spawning.FallingPlatform.Freeze | Assets/Scripts/FallingPlatform.cs:50-61 | follows FreezePlatform |
| Spawning.FallingPlatform.Unfreeze | Assets/Scripts/FallingPlatform.cs:63-71 | follows UnfreezePlatform |
| Spawning.FallingPlatform.RaiseDestroyed | Assets/Scripts/FallingPlatform.cs:78 | raising OnDestroyed decrements a subscribed spawner's count by one |
| Spawning.FallingPlatform.OnDestroy | Assets/Scripts/FallingPlatform.cs:84-87 | OnDestroy raises OnDestroyed once |
| Spawning.FallingPlatform.DestroyObject | Assets/Scripts/FallingPlatform.cs:84-87 | follows DestroyPlatformObject; a subscribed spawner's count drops by the number of callbacks raised |
| Spawning.FallingPlatform.OnCollisionEnter2D | Assets/Scripts/FallingPlatform.cs:73-81 | follows GroundContact; a subscribed spawner's count drops by the number of callbacks raised (two on landing) |
| Spawning.FallingPlatform.Tick | Assets/Scripts/FallingPlatform.cs:29-42 | follows TickPlatform, keeping the spawner's count in line with the callbacks raised |
| Spawning.PlatformSpawner.constructor | Assets/Scripts/PlatformSpawner.cs:16-19 | not spawning, may spawn, no current platform, count 0 |
| Spawning.PlatformSpawner.SpawnPlatform | Assets/Scripts/PlatformSpawner.cs:71-100 | an object is created exactly when there is a prefab; its FallingPlatform is subscribed in pool mode only; one-at-a-time mode records it as the current platform, pool mode counts it |
| Spawning.PlatformSpawner.LoopBody | Assets/Scripts/PlatformSpawner.cs:49-65 | follows SpawnerIteration; an object is created exactly when the capacity test passes and there is a prefab |
| Spawning.PlatformSpawner.StartSpawning | Assets/Scripts/PlatformSpawner.cs:29-36 | follows SpawnerStart; nothing happens when already spawning |
| Spawning.PlatformSpawner.Start | Assets/Scripts/PlatformSpawner.cs:21-27 | StartSpawning exactly when autoStart |
| Spawning.PlatformSpawner.StopSpawning | Assets/Scripts/PlatformSpawner.cs:38-42 | follows SpawnerStop |
| Spawning.PlatformSpawner.Tick | Assets/Scripts/PlatformSpawner.cs:44-69 | follows SpawnerTick |
| Spawning.PlatformSpawner.OnPlatformDestroyed | Assets/Scripts/PlatformSpawner.cs:102-105 | the count drops by one |
| Spawning.PlatformSpawner.PauseSpawning | Assets/Scripts/PlatformSpawner.cs:107-111 | canSpawn is false |
| Spawning.PlatformSpawner.ResumeSpawning | Assets/Scripts/PlatformSpawner.cs:113-117 | canSpawn is true |
| Spikes.InitialSpikeValid | Assets/Scripts/FallingSpike.cs:62-77 | a placed spike satisfies the stage invariant ValidSpike |
| Spikes.ShakeStep | Assets/Scripts/FallingSpike.cs:120-133 | below shakeDuration, the shake time grows by one; at shakeDuration, the spike snaps back, falls and arms a full-lifetime destruction; the shake time never goes back |
| Spikes.TriggerSpike | Assets/Scripts/FallingSpike.cs:111-118 | ignored when frozen or already triggered; otherwise the spike is triggered and its shake routine starts; preserves ValidSpike |
| Spikes.StartShake | Assets/Scripts/FallingSpike.cs:117-133 | the routine's first step: the spike shakes with one tick of shake time more, or falls at once with a destroy scheduled `lifetime` ticks on when no shake time is left; ValidSpike of the shaking spike carries over |
| Spikes.OnDestroySpike | Assets/Scripts/FallingSpike.cs:221-228 | the pending Unfreeze calls are cancelled and nothing else changes, so ValidSpike is kept; afterwards the spawner may spawn if it could before or the spike was frozen and bound, so a destroyed frozen spike never leaves its spawner paused |
| Spikes.SpikeDestroy | Assets/Scripts/FallingSpike.cs:205-219 | the spike is gone and OnDestroyed raised once; a frozen, bound spike sends Resume twice when it was alive (DestroySpike and then OnDestroy) and once otherwise, and an unfrozen or unbound one sends nothing; the pending Unfreeze calls are cancelled |
| Spikes.FixedUpdateSpike | Assets/Scripts/FallingSpike.cs:79-92 | nothing while frozen; an untriggered spike triggers when the player is below; a shaking one is left to its routine; a falling one moves and is destroyed on ground contact (with a collider); an unfrozen spike's FixedUpdate sends no spawner call; ValidSpike is kept |
| Spikes.TouchSpike | Assets/Scripts/FallingSpike.cs:135-146 | a player with a PlayerController destroys the spike, frozen or not; other contacts change nothing |
| Spikes.FreezeSpike | Assets/Scripts/FallingSpike.cs:155-180 | a no-op when not freezable or already frozen; otherwise frozen, still, shaking stopped, pending destruction cancelled, Unfreeze queued, spawner paused; stage and shake time kept |
| Spikes.UnfreezeSpike | Assets/Scripts/FallingSpike.cs:182-203 | a no-op unless frozen; otherwise the spawner is resumed, and an untriggered spike only thaws while a falling one gets a full-lifetime destruction |
| Spikes.SpikeTimers | Assets/Scripts/FallingSpike.cs:120-133 | every delayed call waits one tick less and a running shake takes one step; the freeze and stage are kept |
| Spikes.SpikeDueCalls | Assets/Scripts/FallingSpike.cs:179-199 | a due Unfreeze runs, then a due DestroySpike, which always ends the spike |
| Spikes.DueUnfreeze | Assets/Scripts/FallingSpike.cs:179-203 | only a due Unfreeze of a frozen spike does anything: it thaws the spike and sends one Resume when bound; alive and pending calls are kept, and so is ValidSpike |
| Spikes.DueDestroy | Assets/Scripts/FallingSpike.cs:132 | only a due DestroySpike does anything: the spike is gone with one more OnDestroyed, and a bound spawner may spawn afterwards if the spike was frozen |
| Spikes.TickSpike | Assets/Scripts/FallingSpike.cs:79-92 | a destroyed spike's tick does nothing; every tick preserves ValidSpike |
| Spikes.TickFalling | Assets/Scripts/FallingSpike.cs:87-91 | a quiet tick of a falling spike moves it and counts its destruction down, or destroys it when due |
| Spikes.TickFrozen | Assets/Scripts/FallingSpike.cs:79-81 | a quiet tick of a frozen spike only counts its Unfreeze down, or runs it when due |
| Spikes.TickShaking | Assets/Scripts/FallingSpike.cs:120-133 | a quiet tick of a shaking spike is one step of its routine |
| Spikes.QuietTicksValid | Assets/Scripts/FallingSpike.cs:79-92 | any number of quiet ticks preserve ValidSpike |
| Spikes.ShakeResumesWhereItStopped | Assets/Scripts/FallingSpike.cs:155-203 | a spike frozen mid-shake and thawed continues from the same shake time, as one more uninterrupted step would; the spawner gets Pause then Resume |
| Spikes.ShakeRunsOut | Assets/Scripts/FallingSpike.cs:120-129 | left alone, a shaking spike reaches shakeDuration after exactly shakeDuration - currentShakeTime ticks, sending nothing |
| Spikes.ShakeEndsInFall | Assets/Scripts/FallingSpike.cs:120-133 | on the tick after that it falls, with one destruction pending `lifetime` ticks away |
| Spikes.FallEndsInDestruction | Assets/Scripts/FallingSpike.cs:132 | a falling spike due to be destroyed in k ticks lives k-1 ticks and is gone on the k-th |
| Spikes.FrozenSpikeCountsDown | Assets/Scripts/FallingSpike.cs:79-81 | a frozen spike's quiet tick before its Unfreeze is due only counts down |
| Spikes.FrozenSpikeWaits | Assets/Scripts/FallingSpike.cs:179 | for j < k ticks a frozen spike whose Unfreeze is k ticks away is unchanged apart from the countdown and sends nothing |
| Spikes.FrozenSpikeThaws | Assets/Scripts/FallingSpike.cs:182-203 | on the k-th tick it thaws in the same stage, sends one Resume when bound, and a falling spike gets its full lifetime again |
| Spikes.LifetimeRestartsAfterFreeze | Assets/Scripts/FallingSpike.cs:197-200 | a falling spike frozen for d ticks is destroyed exactly `lifetime` ticks after it thaws, whatever was left before |
| Spikes.ThawedSpikeFallsForLifetime | Assets/Scripts/FallingSpike.cs:197-200 | a frozen falling spike whose Unfreeze is d ticks away lives `lifetime - 1` ticks after the thaw and is gone on the next |
| Spikes.FallingSpike.constructor | Assets/Scripts/FallingSpike.cs:47-60 | a placed spike with its settings and no spawner |
| Spikes.FallingSpike.Init | Assets/Scripts/FallingSpike.cs:47-60 | binds the spawner |
| Spikes.FallingSpike.Start | Assets/Scripts/FallingSpike.cs:62-77 | the body is at rest; nothing else changes |
| Spikes.FallingSpike.StartTriggerSequence | Assets/Scripts/FallingSpike.cs:111-118 | follows TriggerSpike |
| Spikes.FallingSpike.ShakeRoutineStep | Assets/Scripts/FallingSpike.cs:120-133 | follows ShakeStep |
| Spikes.FallingSpike.OnDestroy | Assets/Scripts/FallingSpike.cs:221-228 | follows OnDestroySpike, and the spawner's flag follows the calls sent |
| Spikes.FallingSpike.DestroySpike | Assets/Scripts/FallingSpike.cs:205-219 | follows SpikeDestroy, and the spawner's flag follows the calls sent |
| Spikes.FallingSpike.FixedUpdate | Assets/Scripts/FallingSpike.cs:79-92 | follows FixedUpdateSpike, and the spawner's flag follows the calls sent |
| Spikes.FallingSpike.OnTriggerEnter2D | Assets/Scripts/FallingSpike.cs:135-146 | kills exactly a player with a PlayerController; follows TouchSpike |
| Spikes.FallingSpike.Freeze | Assets/Scripts/FallingSpike.cs:155-180 | follows FreezeSpike, and the spawner's flag follows the calls sent |
| Spikes.FallingSpike.Unfreeze | Assets/Scripts/FallingSpike.cs:182-203 | follows UnfreezeSpike, and the spawner's flag follows the calls sent |
| Spikes.FallingSpike.AdvanceTimers | Assets/Scripts/FallingSpike.cs:120-133 | follows SpikeTimers |
| Spikes.FallingSpike.RunDueUnfreeze | Assets/Scripts/FallingSpike.cs:179 | runs the Unfreeze when it came due, and otherwise changes nothing; the spawner's flag follows the calls sent |
| Spikes.FallingSpike.RunDueDestroy | Assets/Scripts/FallingSpike.cs:132 | runs DestroySpike when it came due, and otherwise changes nothing; the spawner's flag follows the calls sent |
| Spikes.FallingSpike.RunDueCalls | Assets/Scripts/FallingSpike.cs:179-199 | follows SpikeDueCalls, and the spawner's flag follows the calls sent |
| Spikes.FallingSpike.Tick | Assets/Scripts/FallingSpike.cs:79-92 | follows TickSpike, and the spawner's flag follows the calls sent |
| Vanishing.InitialVanishingValid | Assets/Scripts/VanishingPlatform.cs:36-45 | a placed platform is at rest and valid |
| Vanishing.SetColliders | Assets/Scripts/VanishingPlatform.cs:196-200 | each collider component that exists takes the given state, absent ones and every other field are kept; switching the colliders to match whether the platform is vanished keeps ValidVanishing |
| Vanishing.ResetVanishing | Assets/Scripts/VanishingPlatform.cs:182-194 | the platform is at rest: colliders on, both counters 0, not running or vanished; freeze state kept |
| Vanishing.ReappearStep | Assets/Scripts/VanishingPlatform.cs:124-131 | the reappear counter grows by one until reappearDelay, then the platform resets |
| Vanishing.ProcessStep | Assets/Scripts/VanishingPlatform.cs:87-132 | while not vanished, the shake counter grows up to disappearDelay; once vanished, ReappearStep; the freeze state is kept |
| Vanishing.VanishNow | Assets/Scripts/VanishingPlatform.cs:112-121 | the platform vanishes, keeping both counters |
| Vanishing.ContactVanishing | Assets/Scripts/VanishingPlatform.cs:65-84 | ignored while frozen or running or without a player contact from above; otherwise the counters are zeroed and the cycle starts |
| Vanishing.StartProcess | Assets/Scripts/VanishingPlatform.cs:79 | the cycle starts with its first shake step when shake time is left; the freeze, the pending calls and the object are kept; a valid unfrozen platform stays valid |
| Vanishing.ProbeVanishing | Assets/Scripts/VanishingPlatform.cs:47-63 | a ground hit destroys an unfrozen platform that has a collider; nothing else changes |
| Vanishing.FreezeVanishing | Assets/Scripts/VanishingPlatform.cs:134-152 | a no-op when not freezable or already frozen; otherwise the routine stops and the running, vanished and counter state is kept |
| Vanishing.UnfreezeVanishing | Assets/Scripts/VanishingPlatform.cs:154-180 | a no-op unless frozen; the cycle restarts only if it was running |
| Vanishing.TickVanishing | Assets/Scripts/VanishingPlatform.cs:47-50 | a destroyed platform's tick does nothing; every tick preserves the invariant |
| Vanishing.QuietTickRuns | Assets/Scripts/VanishingPlatform.cs:87-132 | a quiet tick of an unfrozen platform is one routine step when the routine runs |
| Vanishing.ShakeHalfRunsOut | Assets/Scripts/VanishingPlatform.cs:92-110 | a running platform in its shake half reaches disappearDelay after exactly the remaining ticks |
| Vanishing.ReappearHalfRunsOut | Assets/Scripts/VanishingPlatform.cs:124-131 | a vanished platform waits out reappearDelay and is at rest on the tick after |
| Vanishing.CycleReturnsToRest | Assets/Scripts/VanishingPlatform.cs:87-132 | a whole cycle returns the platform to rest after the rest of the shake half plus reappearDelay + 1 ticks |
| Vanishing.ShakenOutReturnsToRest | Assets/Scripts/VanishingPlatform.cs:111-131 | a platform at the end of its shake half is at rest reappearDelay + 1 ticks later |
| Vanishing.VanishingTick | Assets/Scripts/VanishingPlatform.cs:111-124 | the tick that ends the shake half is the first tick of the reappear half |
| Vanishing.FreezeKeepsHalf | Assets/Scripts/VanishingPlatform.cs:154-180 | frozen and thawed, a running platform takes exactly the step an uninterrupted routine would take, in the same half |
| Vanishing.ThawTick | Assets/Scripts/VanishingPlatform.cs:154-180 | the tick that runs the Unfreeze does what the first tick without the freeze would have done |
| Vanishing.UnfreezeTick | Assets/Scripts/VanishingPlatform.cs:151-180 | the quiet tick of a frozen platform whose one Unfreeze is due is exactly that Unfreeze |
| Vanishing.FrozenTickVanishing | Assets/Scripts/VanishingPlatform.cs:151 | a frozen platform's quiet tick before its Unfreeze is due only counts down |
| Vanishing.FreezeDelaysByDuration | Assets/Scripts/VanishingPlatform.cs:134-180 | d ticks after a freeze of duration d, the platform is where its first unfrozen tick would have taken it: the freeze costs exactly d - 1 ticks, in either half of the cycle |
| Vanishing.FrozenPlatformWaits | Assets/Scripts/VanishingPlatform.cs:151 | for j < k ticks a frozen platform whose Unfreeze is k ticks away is unchanged apart from the countdown |
| Vanishing.VanishingPlatform.constructor | Assets/Scripts/VanishingPlatform.cs:36-45 | a placed platform at rest |
| Vanishing.VanishingPlatform.SetColliderState | Assets/Scripts/VanishingPlatform.cs:196-200 | follows SetColliders |
| Vanishing.VanishingPlatform.ResetPlatform | Assets/Scripts/VanishingPlatform.cs:182-194 | follows ResetVanishing |
| Vanishing.VanishingPlatform.ProcessRoutineStep | Assets/Scripts/VanishingPlatform.cs:87-132 | follows ProcessStep |
| Vanishing.VanishingPlatform.StartProcessRoutine | Assets/Scripts/VanishingPlatform.cs:79 | the routine starts with its first step |
| Vanishing.VanishingPlatform.OnCollisionEnter2D | Assets/Scripts/VanishingPlatform.cs:65-84 | follows ContactVanishing |
| Vanishing.VanishingPlatform.FixedUpdate | Assets/Scripts/VanishingPlatform.cs:47-63 | follows ProbeVanishing |
| Vanishing.VanishingPlatform.Freeze | Assets/Scripts/VanishingPlatform.cs:134-152 | follows FreezeVanishing |
| Vanishing.VanishingPlatform.Unfreeze | Assets/Scripts/VanishingPlatform.cs:154-180 | follows UnfreezeVanishing |
| Vanishing.VanishingPlatform.Tick | Assets/Scripts/VanishingPlatform.cs:47-50 | follows TickVanishing |
| Moving.MotionFollowsDirection | Assets/Scripts/MovingPlatform.cs:143-147 | only the velocity can change, and the platform moves afterwards exactly when it moved before or is unfrozen; on a platform satisfying ValidMoving it changes nothing |
| Moving.StartMovingPlatform | Assets/Scripts/MovingPlatform.cs:42-65 | the lifetime routine is armed exactly when lifetime > 0; a placed platform becomes valid |
| Moving.Turned | Assets/Scripts/MovingPlatform.cs:128-141 | the direction is negated and turnTimer reset to 0; nothing else changes except motion |
| Moving.TurnAroundTwice | Assets/Scripts/MovingPlatform.cs:128-141 | turning twice restores the direction, with turnTimer 0 |
| Moving.OnDestroyMoving | Assets/Scripts/MovingPlatform.cs:198-202 | the pending Unfreeze calls are cancelled and nothing else changes, so ValidMoving is kept; afterwards the spawner may spawn if it could before or the platform was frozen and bound |
| Moving.DestroyMoving | Assets/Scripts/MovingPlatform.cs:186-196 | the platform is gone and OnDestroyed raised once; a frozen bound platform sends Resume from DestroyPlatform and again from OnDestroy |
| Moving.WallCheck | Assets/Scripts/MovingPlatform.cs:111-124 | without a hit nothing changes; a hit reverses a round-trip platform, restarts its turn timer and sends nothing; a hit destroys any other platform, raising OnDestroyed, and leaves a bound spawner able to spawn if it was frozen; ValidMoving is kept |
| Moving.AutoTurnStep | Assets/Scripts/MovingPlatform.cs:84-92 | with auto-turn on, turnTimer grows by one and the platform turns when it reaches autoTurnTime; otherwise nothing |
| Moving.FixedUpdateMoving | Assets/Scripts/MovingPlatform.cs:73-93 | nothing while frozen; otherwise move, the wall check, then the auto-turn; preserves ValidMoving |
| Moving.FreezeMoving | Assets/Scripts/MovingPlatform.cs:150-169 | a no-op when not freezable or already frozen; otherwise frozen, stopped, lifetime routine stopped, Unfreeze queued, spawner paused; direction and turnTimer kept |
| Moving.UnfreezeMoving | Assets/Scripts/MovingPlatform.cs:171-184 | a no-op unless frozen; otherwise moving again, spawner resumed, and a fresh full lifetime when lifetime > 0 |
| Moving.MovingTimers | Assets/Scripts/MovingPlatform.cs:67-71 | delayed calls move one tick on; a lifetime wait of k > 1 ticks becomes k - 1 and a due or absent one is kept; nothing else changes |
| Moving.DueThenFixedUpdate | Assets/Scripts/MovingPlatform.cs:73-93 | without a due Unfreeze this is FixedUpdate; preserves ValidMoving |
| Moving.TickMoving | Assets/Scripts/MovingPlatform.cs:67-93 | a destroyed platform's tick does nothing; every tick preserves ValidMoving |
| Moving.QuietTickMoves | Assets/Scripts/MovingPlatform.cs:73-93 | a quiet tick of a moving platform is one auto-turn step |
| Moving.AutoTurnPeriod | Assets/Scripts/MovingPlatform.cs:84-92 | with auto-turn, the platform keeps its direction for autoTurnTime - turnTimer - 1 ticks and is reversed on the next, sending nothing |
| Moving.FrozenMovingWaits | Assets/Scripts/MovingPlatform.cs:168 | for j < k ticks a frozen platform whose Unfreeze is k ticks away is unchanged apart from the countdown and sends nothing |
| Moving.FrozenTickMoving | Assets/Scripts/MovingPlatform.cs:75 | a frozen platform's quiet tick before its Unfreeze is due only counts down and sends nothing |
| Moving.FreezeKeepsCourse | Assets/Scripts/MovingPlatform.cs:150-184 | frozen for d ticks, a platform resumes with the same direction, its turnTimer one tick on, a full lifetime, and the spawner got Pause then Resume |
| Moving.FrozenMovingThaws | Assets/Scripts/MovingPlatform.cs:171-184 | on the d-th tick a frozen platform moves again on its old course with a full lifetime and sends one Resume |
| Moving.ThawTickMoving | Assets/Scripts/MovingPlatform.cs:171-184 | the tick that runs the Unfreeze restores motion and a full lifetime, then runs FixedUpdate |
| Moving.LifetimeEndsInDestruction | Assets/Scripts/MovingPlatform.cs:67-71 | a running platform whose lifetime waits k ticks is alive after k-1 quiet ticks and destroyed on the k-th, raising OnDestroyed once, with no spawner call |
| Moving.LifetimeDueTick | Assets/Scripts/MovingPlatform.cs:67-71 | the tick on which the lifetime runs out destroys an unfrozen platform, raising OnDestroyed once, silently |
| Moving.LifetimeWaitTick | Assets/Scripts/MovingPlatform.cs:67-71 | a quiet tick before the lifetime runs out keeps a valid platform alive and unfrozen, one tick closer to its end, silently |
| Moving.ThawedPlatformLivesForLifetime | Assets/Scripts/MovingPlatform.cs:171-184 | a frozen platform thawed after d ticks lives `lifetime - 1` ticks after the thaw and is gone on the next |
| Moving.MovingLifetimeRestartsAfterFreeze | Assets/Scripts/MovingPlatform.cs:150-184 | whatever was left of its lifetime when frozen, a platform is destroyed exactly `lifetime` ticks after the thaw |
| Moving.MovingPlatform.constructor | Assets/Scripts/MovingPlatform.cs:37-40 | a placed platform with its direction and no spawner |
| Moving.MovingPlatform.Init | Assets/Scripts/MovingPlatform.cs:37-40 | binds the spawner |
| Moving.MovingPlatform.StartMoving | Assets/Scripts/MovingPlatform.cs:143-147 | follows MotionFollowsDirection |
| Moving.MovingPlatform.Start | Assets/Scripts/MovingPlatform.cs:42-65 | follows StartMovingPlatform |
| Moving.MovingPlatform.TurnAround | Assets/Scripts/MovingPlatform.cs:128-141 | follows Turned |
| Moving.MovingPlatform.OnDestroy | Assets/Scripts/MovingPlatform.cs:198-202 | follows OnDestroyMoving, and the spawner's flag follows the calls sent |
| Moving.MovingPlatform.DestroyPlatform | Assets/Scripts/MovingPlatform.cs:186-196 | follows DestroyMoving, and the spawner's flag follows the calls sent |
| Moving.MovingPlatform.CheckWallCollision | Assets/Scripts/MovingPlatform.cs:95-125 | follows WallCheck, and the spawner's flag follows the calls sent |
| Moving.MovingPlatform.FixedUpdate | Assets/Scripts/MovingPlatform.cs:73-93 | follows FixedUpdateMoving, and the spawner's flag follows the calls sent |
| Moving.MovingPlatform.Freeze | Assets/Scripts/MovingPlatform.cs:150-169 | follows FreezeMoving, and the spawner's flag follows the calls sent |
| Moving.MovingPlatform.Unfreeze | Assets/Scripts/MovingPlatform.cs:171-184 | follows UnfreezeMoving, and the spawner's flag follows the calls sent |
| Moving.MovingPlatform.Tick | Assets/Scripts/MovingPlatform.cs:67-93 | follows TickMoving, and the spawner's flag follows the calls sent |
| Updrafts.VisualsUpdraft | Assets/Scripts/Updraft.cs:67-77 | nothing while frozen; otherwise the particles and the animator show the working state |
| Updrafts.StartUpdraft | Assets/Scripts/Updraft.cs:17-25 | working exactly when startActive; a placed updraft becomes valid |
| Updrafts.SetWorking | Assets/Scripts/Updraft.cs:27-37 | TurnOn/TurnOff set the working state even while frozen, when only the flag changes; preserves ValidUpdraft |
| Updrafts.FreezeUpdraft | Assets/Scripts/Updraft.cs:40-56 | a no-op while frozen; otherwise frozen for `duration`; the working state never changes |
| Updrafts.ExpireUpdraft | Assets/Scripts/Updraft.cs:58-64 | the end of a freeze: unfrozen, working state unchanged, visuals back in line with it |
| Updrafts.TickUpdraft | Assets/Scripts/Updraft.cs:46-65 | an unfrozen updraft's tick does nothing; the working state never changes; preserves ValidUpdraft |
| Updrafts.FrozenUpdraftWaits | Assets/Scripts/Updraft.cs:56 | a frozen updraft stays frozen, lifting nobody, until its freeze is over |
| Updrafts.SwitchDuringFreezeShowsAtExpiry | Assets/Scripts/Updraft.cs:27-65 | switched on or off while frozen, the updraft shows the new state when the freeze ends and lifts exactly when switched on |
| Updrafts.FreezeKeepsWorking | Assets/Scripts/Updraft.cs:46-65 | however many ticks pass after a freeze, the working state is the one before it |
| Updrafts.TicksKeepWorking | Assets/Scripts/Updraft.cs:46-65 | ticks never change the working state |
| Updrafts.Updraft.constructor | Assets/Scripts/Updraft.cs:13-15 | a placed updraft, not working and not frozen |
| Updrafts.Updraft.UpdateVisuals | Assets/Scripts/Updraft.cs:67-77 | follows VisualsUpdraft |
| Updrafts.Updraft.Start | Assets/Scripts/Updraft.cs:17-25 | follows StartUpdraft |
| Updrafts.Updraft.TurnOn | Assets/Scripts/Updraft.cs:27-31 | follows SetWorking with true |
| Updrafts.Updraft.TurnOff | Assets/Scripts/Updraft.cs:33-37 | follows SetWorking with false |
| Updrafts.Updraft.Freeze | Assets/Scripts/Updraft.cs:40-56 | follows FreezeUpdraft |
| Updrafts.Updraft.EndFreeze | Assets/Scripts/Updraft.cs:58-64 | follows ExpireUpdraft |
| Updrafts.Updraft.OnTriggerStay2D | Assets/Scripts/Updraft.cs:79-101 | lift is applied exactly when the updraft is working, not frozen, and the collider is a player with a Rigidbody2D (LiftApplied, which FrozenUpdraftWaits and SwitchDuringFreezeShowsAtExpiry follow across a freeze) |
| Updrafts.Updraft.Tick | Assets/Scripts/Updraft.cs:46-65 | follows TickUpdraft |
| Fans.StartFan | Assets/Scripts/RotatingFan.cs:19-32 | the animator runs; a placed fan becomes valid |
| Fans.FreezeFan | Assets/Scripts/RotatingFan.cs:38-64 | every call freezes the fan for exactly `duration` from now, replacing a running freeze; the collider becomes a trigger |
| Fans.ExpireFan | Assets/Scripts/RotatingFan.cs:66-75 | the end of a freeze: unfrozen, collider solid, animator running, original colour |
| Fans.TickFan | Assets/Scripts/RotatingFan.cs:49-76 | an unfrozen fan's tick does nothing; preserves ValidFan |
| Fans.FrozenFanWaits | Assets/Scripts/RotatingFan.cs:64 | a frozen fan stays as it is, apart from the countdown, until its freeze is over |
| Fans.FanThawsAfterDuration | Assets/Scripts/RotatingFan.cs:38-76 | frozen for d ticks, the fan is still passable after d-1 ticks and solid again after d |
| Fans.SecondHitRestartsFreeze | Assets/Scripts/RotatingFan.cs:40-46 | a second hit during a freeze restarts it: the fan thaws exactly d2 ticks after the second hit, whatever the first duration was |
| Fans.FrozenStaysFrozen | Assets/Scripts/RotatingFan.cs:49-76 | a fan frozen after m + n ticks was frozen after m ticks |
| Fans.TicksKeepValid | Assets/Scripts/RotatingFan.cs:49-76 | ticks preserve ValidFan |
| Fans.ThawedStaysThawed | Assets/Scripts/RotatingFan.cs:49-76 | without a hit, a thawed fan stays as it is |
| Fans.RotatingFan.constructor | Assets/Scripts/RotatingFan.cs:16-17 | a placed fan, not frozen |
| Fans.RotatingFan.Start | Assets/Scripts/RotatingFan.cs:19-32 | follows StartFan |
| Fans.RotatingFan.Freeze | Assets/Scripts/RotatingFan.cs:38-47 | follows FreezeFan |
| Fans.RotatingFan.EndFreeze | Assets/Scripts/RotatingFan.cs:66-75 | follows ExpireFan |
| Fans.RotatingFan.Tick | Assets/Scripts/RotatingFan.cs:49-76 | follows TickFan |
| Electric.RefreshField | Assets/Scripts/ElectricField.cs:45-55 | each component that exists shows the active state; absent ones and the active flag are untouched |
| Electric.StartField | Assets/Scripts/ElectricField.cs:23-28 | active exactly when startActive, with the components in line |
| Electric.SwitchField | Assets/Scripts/ElectricField.cs:31-42 | TurnOn/TurnOff set the active flag with the components in line; a no-op when already so |
| Electric.SwitchDecidesDanger | Assets/Scripts/ElectricField.cs:31-68 | a field switched off is passable and kills nobody; one switched on kills a player who enters |
| Electric.SwitchIdempotent | Assets/Scripts/ElectricField.cs:31-42 | switching the same way twice equals switching once |
| Electric.ElectricField.constructor | Assets/Scripts/ElectricField.cs:13 | a placed field, not yet active, with its components enabled |
| Electric.ElectricField.UpdateState | Assets/Scripts/ElectricField.cs:45-55 | follows RefreshField |
| Electric.ElectricField.Start | Assets/Scripts/ElectricField.cs:23-28 | follows StartField |
| Electric.ElectricField.TurnOn | Assets/Scripts/ElectricField.cs:31-35 | follows SwitchField with true |
| Electric.ElectricField.TurnOff | Assets/Scripts/ElectricField.cs:38-42 | follows SwitchField with false |
| Electric.ElectricField.OnTriggerEnter2D | Assets/Scripts/ElectricField.cs:58-68 | a player dies on entering exactly when the field is active and the collider is a player with a PlayerController (KillsOnEnter, which SwitchDecidesDanger ties to the switch) |
| Generators.VisualsGenerator | Assets/Scripts/Generator.cs:70-85 | the sprite shows the state wherever that state's sprite is set; without a renderer nothing changes; nothing but the sprite changes |
| Generators.StartGenerator | Assets/Scripts/Generator.cs:26-40 | activated exactly when startActivated, the matching event fired once, the prompt hidden |
| Generators.ToggleGenerator | Assets/Scripts/Generator.cs:51-68 | the state is negated and onTurnOn fires exactly when the new state is on, otherwise onTurnOff; preserves ValidGenerator |
| Generators.UpdateGenerator | Assets/Scripts/Generator.cs:42-49 | a frame toggles exactly when the player is in range and the key is pressed; otherwise nothing changes |
| Generators.PlayerRange | Assets/Scripts/Generator.cs:87-103 | a player entering sets the range flag and shows the prompt, leaving clears both; other colliders change nothing |
| Generators.ToggleTwiceRestores | Assets/Scripts/Generator.cs:51-68 | toggling twice restores the state and fires the two opposite events |
| Generators.RunFrames | Assets/Scripts/Generator.cs:42-49 | frames keep ValidGenerator and the range flag |
| Generators.PressesToggle | Assets/Scripts/Generator.cs:42-68 | in range, each press fires one event, and the generator ends activated according to the parity of the presses |
| Generators.OutOfRangeIgnoresKeys | Assets/Scripts/Generator.cs:45 | out of range, no key press changes anything |
| Generators.Generator.constructor | Assets/Scripts/Generator.cs:22-24 | a placed generator, not activated, player not in range, nothing fired |
| Generators.Generator.UpdateVisuals | Assets/Scripts/Generator.cs:70-85 | follows VisualsGenerator |
| Generators.Generator.Start | Assets/Scripts/Generator.cs:26-40 | follows StartGenerator |
| Generators.Generator.Toggle | Assets/Scripts/Generator.cs:51-68 | follows ToggleGenerator |
| Generators.Generator.Update | Assets/Scripts/Generator.cs:42-49 | follows UpdateGenerator |
| Generators.Generator.OnTriggerEnter2D | Assets/Scripts/Generator.cs:87-94 | follows PlayerRange with entering |
| Generators.Generator.OnTriggerExit2D | Assets/Scripts/Generator.cs:96-103 | follows PlayerRange with leaving |
| Coordination.OneHazardFlagExact | Assets/Scripts/PlatformSpawner.cs:107-117 | with one bound hazard, the boolean flag allows spawning after any freeze history exactly when that hazard is not frozen |
| Coordination.OverlappingFreezesResumeEarly | Assets/Scripts/PlatformSpawner.cs:107-117 | with two hazards, freezing both and thawing one leaves one frozen while the spawner may spawn |
| Coordination.SpikeFreezeRoundTrip | Assets/Scripts/FallingSpike.cs:155-203 | a spike frozen for d ticks sends Pause at once and Resume on the d-th tick |
| Coordination.SpikeFreezeHolds | Assets/Scripts/FallingSpike.cs:155-180 | for j < d ticks it stays frozen and sends nothing more |
| Coordination.TwoSpikesShareSpawner | Assets/Scripts/PlatformSpawner.cs:107-117 | two spikes on one spawner frozen for d1 < d2 ticks: after d1 ticks the spawner got Pause, Pause, Resume and may spawn while the second spike is frozen |
| Coordination.PausesAfter | Assets/Scripts/PlatformSpawner.cs:107-117 | counted-pause variant: no calls leave the count unchanged |
| Coordination.PausesAfterConcat | Assets/Scripts/PlatformSpawner.cs:107-117 | counted-pause variant: two batches of calls act as their concatenation |
| Coordination.CountedPauseTracksFrozen | Assets/Scripts/PlatformSpawner.cs:107-117 | counted-pause variant: the count equals the number of frozen hazards, so spawning is allowed exactly when none is frozen |
| Coordination.LandingFreesTwoPoolPlaces | Assets/Scripts/FallingPlatform.cs:73-87 | in a full pool, one landing platform frees two places, and the loop spawns two, one more live platform than maxPlatforms |
| Circuits.FieldFollowsLastEvent | Assets/Scripts/ElectricField.cs:31-42 | a field that receives events is active exactly when the last was onTurnOn |
| Circuits.UpdraftFollowsLastEvent | Assets/Scripts/Updraft.cs:27-37 | an updraft that receives events is working exactly when the last was onTurnOn |
| Circuits.FieldFollowsGenerator | Assets/Scripts/Generator.cs:51-68 | a field wired to a generator is active exactly when the generator is activated, once it has received its latest event |
| Circuits.UpdraftFollowsGenerator | Assets/Scripts/Generator.cs:51-68 | the same for an updraft's working state, frozen or not |

## Left out

- Float physics:
  - velocities, fall speed, wind force and gravity compensation (Updraft.cs:90-98);
  - BoxCast/Raycast geometry and contact normals.
  Motion is a boolean ("moving"/"falling") and probes are boolean inputs.
- Visual detail:
  - colours and alpha;
  - random shake offsets, which are a boolean "jittered";
  - positions and the spike's anchor;
  - sprite and particle calls, except where a flag is observable.
- Time: seconds become whole ticks. A `WaitForSeconds(0)` or `Invoke(..., 0)` runs on the next tick.
- Tick order: Unity's exact order of coroutines, Invoke calls and FixedUpdate within a frame is simplified to the fixed order above.
- Destruction: `Destroy` takes effect at once, where Unity defers it to the end of the frame.
- Start order: the order of `Start` calls across objects is not modelled. A field's own `Start` after a generator's event would override that event.
- `FallingPlatform.Init`: called at PlatformSpawner.cs:81, but FallingPlatform.cs declares no such method. The call is left out.
- `PlayerController.Die`: called by the spike and the field, but not part of this model. A kill is a returned boolean.
- OnDestroyed subscribers: only a spawner's `OnPlatformDestroyed` is modelled as a subscriber, one per platform.
- `RotatingFan.freezeDuration` is never read by the code, so it has no counterpart.
- Engine objects: debug logging, gizmos and the prefab's position and rotation are left out.
- Spawned platforms: the spawner's returned FallingPlatform is not ticked by the spawner. Objects the prefab carries besides a FallingPlatform are opaque `GameObject`s.
- Spawning.TickPlatform: its contract states only that a destroyed platform stays unchanged. The lemmas `SingleUnfreezeEndsFreeze` (one Freeze), `EarliestUnfreezeEndsFreeze` (two Freeze calls) and `LifetimeIgnoresFreeze` state what its ticks do; queues of three or more Unfreeze calls are covered only by `FreezesQueueUnfreezes`.
- Spikes.TickSpike, Vanishing.TickVanishing, Moving.TickMoving: their contracts state invariant preservation and the dead case. What their ticks do is stated by the quiet-tick lemmas (`TickFalling`, `TickFrozen`, `TickShaking`, `QuietTickRuns`, `QuietTickMoves`, `LifetimeWaitTick`, `LifetimeDueTick`) and the n-tick lemmas built on them (for the moving platform's lifetime, `LifetimeEndsInDestruction` and `MovingLifetimeRestartsAfterFreeze`). Ticks with an obstacle ahead are covered only by `WallCheck` and `FixedUpdateMoving`.
