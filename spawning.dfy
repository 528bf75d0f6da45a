/**
 * PlatformSpawner (Assets/Scripts/PlatformSpawner.cs) and the FallingPlatform
 * it instantiates (Assets/Scripts/FallingPlatform.cs).
 *
 * The two share one module because each refers to the other: the spawner
 * subscribes to a spawned FallingPlatform's OnDestroyed event, and that
 * event calls back into the spawner's OnPlatformDestroyed.
 *
 * Each is given twice: a value model (a datatype and pure transition
 * functions, about which the lemmas are proved) and a class holding the
 * source's fields, whose methods update them in place and are proved to
 * follow the value model.
 */
module Spawning {
  import opened Engine

  // ---------------------------------------------------------------------------
  // FallingPlatform: value model
  // ---------------------------------------------------------------------------

  /** Inspector settings of a FallingPlatform; lifetime in ticks (0 = never expires). */
  datatype PlatformConfig = PlatformConfig(canBeFrozen: bool, lifetime: nat)

  /**
   * Abstract value of a FallingPlatform. `falling` says the body's velocity is
   * the fall velocity (false: zero); `unfreezeInvokes` are the pending
   * `Invoke(Unfreeze, duration)` calls; `destroyIn` is the pending
   * `Destroy(gameObject, lifetime)`; `alive` is false once the game object is
   * destroyed; `destroyedEvents` counts how often OnDestroyed was raised.
   */
  datatype PlatformState = PlatformState(
    isFrozen: bool,
    isKinematic: bool,
    falling: bool,
    unfreezeInvokes: seq<nat>,
    destroyIn: Option<nat>,
    alive: bool,
    destroyedEvents: nat)

  /** A freshly instantiated platform, before the engine calls Start. */
  function NewPlatform(): PlatformState
  {
    PlatformState(false, false, false, [], None, true, 0)
  }

  /** Start: begin falling and, when lifetime > 0, schedule the object's destruction. */
  function StartPlatform(c: PlatformConfig, s: PlatformState): (r: PlatformState)
    ensures r.falling && r.isFrozen == s.isFrozen
    ensures c.lifetime > 0 ==> r.destroyIn == Some(c.lifetime)
    ensures c.lifetime == 0 ==> r.destroyIn == s.destroyIn
  {
    s.(falling := true, destroyIn := if c.lifetime > 0 then Some(c.lifetime) else s.destroyIn)
  }

  /** Update: the fall velocity is written on every frame the platform is not frozen. */
  function UpdatePlatform(s: PlatformState): (r: PlatformState)
    ensures r.falling == (s.falling || !s.isFrozen)
    ensures r.isFrozen == s.isFrozen && r.unfreezeInvokes == s.unfreezeInvokes && r.destroyIn == s.destroyIn
  {
    if s.isFrozen then s else s.(falling := true)
  }

  /**
   * Freeze: guarded only by canBeFrozen. There is no already-frozen guard, so
   * every call queues one more Unfreeze. The lifetime destruction is untouched.
   */
  function FreezePlatform(c: PlatformConfig, s: PlatformState, duration: nat): (r: PlatformState)
    ensures !c.canBeFrozen ==> r == s
    ensures c.canBeFrozen ==> r.isFrozen && r.isKinematic && !r.falling
    ensures c.canBeFrozen ==> r.unfreezeInvokes == s.unfreezeInvokes + [duration]
    ensures r.destroyIn == s.destroyIn && r.alive == s.alive && r.destroyedEvents == s.destroyedEvents
  {
    if !c.canBeFrozen then s
    else s.(isFrozen := true, falling := false, isKinematic := true,
            unfreezeInvokes := s.unfreezeInvokes + [duration])
  }

  /** Unfreeze: unconditional, whether or not the platform is frozen. */
  function UnfreezePlatform(s: PlatformState): (r: PlatformState)
    ensures !r.isFrozen && !r.isKinematic && r.falling
    ensures r.unfreezeInvokes == s.unfreezeInvokes && r.destroyIn == s.destroyIn
    ensures r.alive == s.alive && r.destroyedEvents == s.destroyedEvents
  {
    s.(isFrozen := false, isKinematic := false, falling := true)
  }

  /** The engine destroys the game object (once) and then calls OnDestroy, which raises OnDestroyed. */
  function DestroyPlatformObject(s: PlatformState): (r: PlatformState)
    ensures !r.alive
    ensures r.destroyedEvents == s.destroyedEvents + (if s.alive then 1 else 0)
  {
    if s.alive then s.(alive := false, destroyedEvents := s.destroyedEvents + 1) else s
  }

  /**
   * OnCollisionEnter2D: contact with the Ground layer raises OnDestroyed and
   * destroys the object, whose OnDestroy raises OnDestroyed a second time.
   */
  function GroundContact(s: PlatformState, onGroundLayer: bool): (r: PlatformState)
    ensures !onGroundLayer ==> r == s
    ensures onGroundLayer ==> !r.alive
    ensures onGroundLayer && s.alive ==> r.destroyedEvents == s.destroyedEvents + 2
  {
    if onGroundLayer then DestroyPlatformObject(s.(destroyedEvents := s.destroyedEvents + 1)) else s
  }

  /**
   * One tick of a live platform: the scheduled destruction counts down and
   * ends the object when due, whether frozen or not; due Unfreeze calls run
   * (running several at once has the effect of one); then Update.
   */
  function TickPlatform(s: PlatformState): (r: PlatformState)
    ensures !s.alive ==> r == s
  {
    if !s.alive then s
    else if s.destroyIn.Some? && s.destroyIn.value <= 1 then
      DestroyPlatformObject(s.(destroyIn := None))
    else
      var s1 := s.(destroyIn := if s.destroyIn.Some? then Some(s.destroyIn.value - 1) else None,
                   unfreezeInvokes := Advance(s.unfreezeInvokes));
      UpdatePlatform(if Fires(s.unfreezeInvokes) then UnfreezePlatform(s1) else s1)
  }

  /** `n` ticks in a row. */
  function TicksPlatform(s: PlatformState, n: nat): PlatformState
    decreases n
  {
    if n == 0 then s else TicksPlatform(TickPlatform(s), n - 1)
  }

  /** `k` Freeze calls in a row with the same duration. */
  function FreezesPlatform(c: PlatformConfig, s: PlatformState, duration: nat, k: nat): PlatformState
    decreases k
  {
    if k == 0 then s else FreezesPlatform(c, FreezePlatform(c, s, duration), duration, k - 1)
  }

  /** Every Freeze call on a freezable platform queues its own Unfreeze. */
  lemma {:induction false} FreezesQueueUnfreezes(c: PlatformConfig, s: PlatformState, duration: nat, k: nat)
    requires c.canBeFrozen
    ensures |FreezesPlatform(c, s, duration, k).unfreezeInvokes| == |s.unfreezeInvokes| + k
    ensures k > 0 ==> FreezesPlatform(c, s, duration, k).isFrozen
    decreases k
  {
    if k > 0 {
      FreezesQueueUnfreezes(c, FreezePlatform(c, s, duration), duration, k - 1);
    }
  }

  /**
   * A single Freeze of `d` ticks: the platform stays frozen for `d - 1`
   * ticks and is unfrozen on the d-th, with nothing left pending, unless
   * its lifetime ends first.
   */
  lemma {:induction false} SingleUnfreezeEndsFreeze(s: PlatformState, d: nat)
    requires s.alive && (s.destroyIn.None? || s.destroyIn.value > d) && s.isFrozen
    requires 1 <= d && s.unfreezeInvokes == [d]
    ensures TicksPlatform(s, d - 1).isFrozen
    ensures !TicksPlatform(s, d).isFrozen && TicksPlatform(s, d).alive
    ensures TicksPlatform(s, d).unfreezeInvokes == []
    decreases d
  {
    FrozenPlatformTick(s, d);
    if d > 1 {
      SingleUnfreezeEndsFreeze(TickPlatform(s), d - 1);
    }
  }

  /** One tick of a frozen platform waiting on a single Unfreeze `d` ticks away, before its lifetime ends. */
  lemma FrozenPlatformTick(s: PlatformState, d: nat)
    requires s.alive && (s.destroyIn.None? || s.destroyIn.value > d) && s.isFrozen
    requires 1 <= d && s.unfreezeInvokes == [d]
    ensures var t := TickPlatform(s);
      && t.alive && (t.destroyIn.None? || t.destroyIn.value > d - 1)
      && t.isFrozen == (d > 1) && t.unfreezeInvokes == (if d > 1 then [d - 1] else [])
  {
    AdvancePair(d, 0);
  }

  /**
   * A second Freeze does not extend the first: with Unfreeze calls pending
   * after `a` and `b` ticks (a <= b), the platform is unfrozen after `a`
   * ticks, and only the later call is still waiting.
   */
  lemma {:induction false} EarliestUnfreezeEndsFreeze(s: PlatformState, a: nat, b: nat)
    requires s.alive && (s.destroyIn.None? || s.destroyIn.value > a) && s.isFrozen
    requires 1 <= a <= b && s.unfreezeInvokes == [a, b]
    ensures TicksPlatform(s, a - 1).isFrozen
    ensures !TicksPlatform(s, a).isFrozen && TicksPlatform(s, a).alive
    ensures TicksPlatform(s, a).unfreezeInvokes == (if b > a then [b - a] else [])
    decreases a
  {
    AdvancePair(a, b);
    if a > 1 {
      var s' := TickPlatform(s);
      assert s'.unfreezeInvokes == [a - 1, b - 1] && s'.isFrozen;
      EarliestUnfreezeEndsFreeze(s', a - 1, b - 1);
    }
  }

  /**
   * The lifetime destruction runs on schedule whatever happens to the freeze
   * state: a live platform due to be destroyed in `k` ticks is alive for
   * `k - 1` more ticks and gone after `k`.
   */
  lemma {:induction false} LifetimeIgnoresFreeze(s: PlatformState, k: nat)
    requires s.alive && k >= 1 && s.destroyIn == Some(k)
    ensures TicksPlatform(s, k - 1).alive
    ensures !TicksPlatform(s, k).alive
    ensures TicksPlatform(s, k).destroyedEvents == s.destroyedEvents + 1
    decreases k
  {
    if k > 1 {
      LifetimeIgnoresFreeze(TickPlatform(s), k - 1);
    }
  }

  // ---------------------------------------------------------------------------
  // PlatformSpawner: value model
  // ---------------------------------------------------------------------------

  /** `platformPrefab`: absent, or a template whose instances carry a FallingPlatform or not. */
  datatype Prefab = NoPrefab | Template(hasFallingPlatform: bool, platform: PlatformConfig)

  /** Inspector settings of a spawner; spawnInterval in ticks. */
  datatype SpawnerConfig = SpawnerConfig(
    prefab: Prefab,
    spawnInterval: nat,
    autoStart: bool,
    oneAtATime: bool,
    maxPlatforms: int)

  /**
   * Abstract value of a spawner. `slotTaken` is `currentPlatform != null` as
   * the engine evaluates it: a destroyed object compares equal to null, so
   * the slot frees itself when its occupant is destroyed. `count` is
   * currentPlatformCount; `wait` is the number of ticks the production loop
   * still waits before its next iteration.
   */
  datatype SpawnerState = SpawnerState(
    isSpawning: bool,
    canSpawn: bool,
    slotTaken: bool,
    count: int,
    wait: nat)

  function InitialSpawner(): SpawnerState
  {
    SpawnerState(false, true, false, 0, 0)
  }

  /** The loop body's capacity test: one-at-a-time needs a free slot, pool mode needs room under maxPlatforms. */
  predicate WillSpawn(c: SpawnerConfig, s: SpawnerState)
  {
    s.canSpawn && (if c.oneAtATime then !s.slotTaken else s.count < c.maxPlatforms)
  }

  /** SpawnPlatform: nothing without a prefab; otherwise the new object takes the slot or is counted. */
  function SpawnerSpawn(c: SpawnerConfig, s: SpawnerState): (r: SpawnerState)
    ensures r.isSpawning == s.isSpawning && r.canSpawn == s.canSpawn && r.wait == s.wait
    ensures c.prefab.NoPrefab? ==> r == s
    ensures c.prefab.Template? && c.oneAtATime ==> r.slotTaken && r.count == s.count
    ensures c.prefab.Template? && !c.oneAtATime ==> r.count == s.count + 1 && r.slotTaken == s.slotTaken
  {
    if c.prefab.NoPrefab? then s
    else if c.oneAtATime then s.(slotTaken := true)
    else s.(count := s.count + 1)
  }

  /** One iteration of SpawnRoutine's loop body. */
  function SpawnerIteration(c: SpawnerConfig, s: SpawnerState): (r: SpawnerState)
    ensures r.isSpawning == s.isSpawning && r.canSpawn == s.canSpawn && r.wait == s.wait
    ensures !s.canSpawn || c.prefab.NoPrefab? ==> r == s
    ensures c.oneAtATime ==> r.count == s.count
    ensures c.oneAtATime ==> (r.slotTaken <==> s.slotTaken || (s.canSpawn && c.prefab.Template?))
    ensures !c.oneAtATime ==> r.slotTaken == s.slotTaken
    ensures !c.oneAtATime ==>
      r.count == s.count + (if s.canSpawn && s.count < c.maxPlatforms && c.prefab.Template? then 1 else 0)
  {
    if WillSpawn(c, s) then SpawnerSpawn(c, s) else s
  }

  /** StartSpawning: starts the loop (running its first iteration at once) unless it already runs. */
  function SpawnerStart(c: SpawnerConfig, s: SpawnerState): (r: SpawnerState)
    ensures r.isSpawning
    ensures s.isSpawning ==> r == s
    ensures !s.isSpawning ==> r == SpawnerIteration(c, s).(isSpawning := true, wait := c.spawnInterval)
  {
    if s.isSpawning then s
    else SpawnerIteration(c, s.(isSpawning := true)).(wait := c.spawnInterval)
  }

  /** Start: StartSpawning when autoStart is set. */
  function SpawnerAutoStart(c: SpawnerConfig, s: SpawnerState): (r: SpawnerState)
    ensures r.isSpawning <==> s.isSpawning || c.autoStart
    ensures !c.autoStart || s.isSpawning ==> r == s
    ensures r.canSpawn == s.canSpawn
  {
    if c.autoStart then SpawnerStart(c, s) else s
  }

  /** StopSpawning: ends the loop; spawned platforms and counters stay as they are. */
  function SpawnerStop(s: SpawnerState): (r: SpawnerState)
    ensures !r.isSpawning
    ensures r.canSpawn == s.canSpawn && r.slotTaken == s.slotTaken && r.count == s.count
  {
    s.(isSpawning := false)
  }

  /**
   * One tick of the production loop: while the loop runs it waits out
   * spawnInterval and then runs the body again. A paused spawner keeps the
   * loop waiting on schedule but spawns nothing.
   */
  function SpawnerTick(c: SpawnerConfig, s: SpawnerState): (r: SpawnerState)
    ensures !s.isSpawning ==> r == s
    ensures r.isSpawning == s.isSpawning && r.canSpawn == s.canSpawn
    ensures !s.canSpawn ==> r.slotTaken == s.slotTaken && r.count == s.count
    ensures s.isSpawning && s.wait > 1 ==> r == s.(wait := s.wait - 1)
    ensures s.isSpawning && s.wait <= 1 ==> r.wait == c.spawnInterval
  {
    if !s.isSpawning then s
    else if s.wait > 1 then s.(wait := s.wait - 1)
    else SpawnerIteration(c, s).(wait := c.spawnInterval)
  }

  /** What can happen to a spawner between two observations. */
  datatype SpawnerEvent =
    | StartCall | StopCall | LoopTick | PauseCall | ResumeCall
    | PlatformDestroyed   // OnPlatformDestroyed, the pool-mode destroy callback
    | SlotFreed           // the one-at-a-time occupant was destroyed

  function ApplyEvent(c: SpawnerConfig, s: SpawnerState, e: SpawnerEvent): SpawnerState
  {
    match e
    case StartCall => SpawnerStart(c, s)
    case StopCall => SpawnerStop(s)
    case LoopTick => SpawnerTick(c, s)
    case PauseCall => s.(canSpawn := false)
    case ResumeCall => s.(canSpawn := true)
    case PlatformDestroyed => s.(count := s.count - 1)
    case SlotFreed => s.(slotTaken := false)
  }

  function Run(c: SpawnerConfig, s: SpawnerState, evs: seq<SpawnerEvent>): SpawnerState
    decreases |evs|
  {
    if evs == [] then s else Run(c, ApplyEvent(c, s, evs[0]), evs[1..])
  }

  /** The PauseSpawning / ResumeSpawning calls among `evs`, in order. */
  function PauseCalls(evs: seq<SpawnerEvent>): seq<Signal>
    decreases |evs|
  {
    if evs == [] then []
    else (match evs[0]
          case PauseCall => [Pause]
          case ResumeCall => [Resume]
          case _ => []) + PauseCalls(evs[1..])
  }

  /** The pause flag is set and cleared, not counted: after any history the last call decides. */
  lemma {:induction false} LastPauseCallDecides(c: SpawnerConfig, s: SpawnerState, evs: seq<SpawnerEvent>)
    ensures Run(c, s, evs).canSpawn == After(s.canSpawn, PauseCalls(evs))
    decreases |evs|
  {
    if evs != [] {
      var s' := ApplyEvent(c, s, evs[0]);
      LastPauseCallDecides(c, s', evs[1..]);
      var head := PauseCalls([evs[0]]);
      assert PauseCalls(evs) == head + PauseCalls(evs[1..]) by {
        assert PauseCalls([evs[0]]) == (match evs[0] case PauseCall => [Pause] case ResumeCall => [Resume] case _ => []) + PauseCalls([]);
      }
      AfterConcat(s.canSpawn, head, PauseCalls(evs[1..]));
      assert After(s.canSpawn, head) == s'.canSpawn;
    }
  }

  /** A paused spawner produces nothing until it is resumed, whatever else happens to its loop. */
  lemma {:induction false} PausedSpawnerProducesNothing(c: SpawnerConfig, s: SpawnerState, evs: seq<SpawnerEvent>)
    requires !s.canSpawn
    requires forall i :: 0 <= i < |evs| ==> evs[i] in {StartCall, StopCall, LoopTick, PauseCall}
    ensures Run(c, s, evs).count == s.count && Run(c, s, evs).slotTaken == s.slotTaken
    ensures !Run(c, s, evs).canSpawn
    decreases |evs|
  {
    if evs != [] {
      assert evs[0] in {StartCall, StopCall, LoopTick, PauseCall};
      PausedSpawnerProducesNothing(c, ApplyEvent(c, s, evs[0]), evs[1..]);
    }
  }

  /**
   * In pool mode the counter never exceeds maxPlatforms, provided it starts
   * within the bound. (The counter measures spawns minus destroy callbacks,
   * not live platforms: see GroundContact, which raises the callback twice.)
   */
  lemma {:induction false} PoolCountBounded(c: SpawnerConfig, s: SpawnerState, evs: seq<SpawnerEvent>)
    requires !c.oneAtATime && s.count <= c.maxPlatforms
    ensures Run(c, s, evs).count <= c.maxPlatforms
    decreases |evs|
  {
    if evs != [] {
      PoolCountBounded(c, ApplyEvent(c, s, evs[0]), evs[1..]);
    }
  }

  // ---------------------------------------------------------------------------
  // Objects
  // ---------------------------------------------------------------------------

  /** An instantiated game object; `alive` turns false when the engine destroys it. */
  class GameObject {
    var alive: bool

    constructor ()
      ensures alive
    {
      alive := true;
    }
  }

  function SpawnerSet(p: PlatformSpawner?): set<PlatformSpawner>
  {
    if p == null then {} else {p}
  }

  /** FallingPlatform: falls, can be frozen, and raises OnDestroyed when it goes. */
  class FallingPlatform {
    const config: PlatformConfig
    const host: GameObject
    var isFrozen: bool
    var isKinematic: bool
    var falling: bool
    var unfreezeInvokes: seq<nat>
    var destroyIn: Option<nat>
    var destroyedEvents: nat
    /** The handler subscribed to OnDestroyed, if any: a spawner's OnPlatformDestroyed. */
    var listener: PlatformSpawner?

    function State(): PlatformState
      reads this, host
    {
      PlatformState(isFrozen, isKinematic, falling, unfreezeInvokes, destroyIn, host.alive, destroyedEvents)
    }

    constructor (config: PlatformConfig, host: GameObject)
      requires host.alive
      ensures this.config == config && this.host == host && listener == null
      ensures State() == NewPlatform()
    {
      this.config := config;
      this.host := host;
      isFrozen, isKinematic, falling := false, false, false;
      unfreezeInvokes, destroyIn, destroyedEvents := [], None, 0;
      listener := null;
    }

    /** `OnDestroyed += spawner.OnPlatformDestroyed`. */
    method Subscribe(spawner: PlatformSpawner)
      modifies this`listener
      ensures listener == spawner
    {
      listener := spawner;
    }

    method Start()
      modifies this
      ensures State() == StartPlatform(config, old(State())) && listener == old(listener)
    {
      falling := true;
      if config.lifetime > 0 {
        destroyIn := Some(config.lifetime);
      }
    }

    method Update()
      modifies this`falling
      ensures State() == UpdatePlatform(old(State()))
    {
      if !isFrozen {
        falling := true;
      }
    }

    method Freeze(duration: nat)
      modifies this
      ensures State() == FreezePlatform(config, old(State()), duration) && listener == old(listener)
    {
      if !config.canBeFrozen {
        return;
      }
      isFrozen := true;
      falling := false;
      isKinematic := true;
      unfreezeInvokes := unfreezeInvokes + [duration];
    }

    method Unfreeze()
      modifies this`isFrozen, this`isKinematic, this`falling
      ensures State() == UnfreezePlatform(old(State()))
    {
      isFrozen := false;
      isKinematic := false;
      falling := true;
    }

    /** `OnDestroyed?.Invoke()`. */
    method RaiseDestroyed()
      modifies this`destroyedEvents, SpawnerSet(listener)`currentPlatformCount
      ensures destroyedEvents == old(destroyedEvents) + 1
      ensures listener != null ==> listener.currentPlatformCount == old(listener.currentPlatformCount) - 1
    {
      destroyedEvents := destroyedEvents + 1;
      if listener != null {
        listener.OnPlatformDestroyed();
      }
    }

    method OnDestroy()
      modifies this`destroyedEvents, SpawnerSet(listener)`currentPlatformCount
      ensures State() == old(State()).(destroyedEvents := old(destroyedEvents) + 1)
      ensures listener != null ==> listener.currentPlatformCount == old(listener.currentPlatformCount) - 1
    {
      RaiseDestroyed();
    }

    /** The engine's `Destroy(gameObject)`: a live object is destroyed and its OnDestroy runs. */
    method DestroyObject()
      modifies host, this`destroyedEvents, SpawnerSet(listener)`currentPlatformCount
      ensures State() == DestroyPlatformObject(old(State()))
      ensures listener != null ==>
        listener.currentPlatformCount == old(listener.currentPlatformCount) - (destroyedEvents - old(destroyedEvents))
    {
      if host.alive {
        host.alive := false;
        OnDestroy();
      }
    }

    method OnCollisionEnter2D(onGroundLayer: bool)
      modifies host, this`destroyedEvents, SpawnerSet(listener)`currentPlatformCount
      ensures State() == GroundContact(old(State()), onGroundLayer)
      ensures listener != null ==>
        listener.currentPlatformCount == old(listener.currentPlatformCount) - (destroyedEvents - old(destroyedEvents))
    {
      if onGroundLayer {
        RaiseDestroyed();
        DestroyObject();
      }
    }

    /** One tick: the scheduled destruction, due Unfreeze calls, then Update. */
    method Tick()
      modifies this, host, SpawnerSet(listener)`currentPlatformCount
      ensures State() == TickPlatform(old(State())) && listener == old(listener)
      ensures listener != null ==>
        listener.currentPlatformCount == old(listener.currentPlatformCount) - (destroyedEvents - old(destroyedEvents))
    {
      if !host.alive {
        return;
      }
      if destroyIn.Some? && destroyIn.value <= 1 {
        destroyIn := None;
        DestroyObject();
        return;
      }
      if destroyIn.Some? {
        destroyIn := Some(destroyIn.value - 1);
      }
      var due := Fires(unfreezeInvokes);
      unfreezeInvokes := Advance(unfreezeInvokes);
      if due {
        Unfreeze();
      }
      Update();
    }
  }

  /** PlatformSpawner: periodically instantiates the prefab, one at a time or up to maxPlatforms. */
  class PlatformSpawner {
    const config: SpawnerConfig
    var isSpawning: bool
    var canSpawn: bool
    var currentPlatform: GameObject?
    var currentPlatformCount: int
    /** Ticks the loop still waits (WaitForSeconds(spawnInterval)) before its next iteration. */
    var wait: nat

    function State(): SpawnerState
      reads this, currentPlatform
    {
      SpawnerState(isSpawning, canSpawn, currentPlatform != null && currentPlatform.alive,
                   currentPlatformCount, wait)
    }

    constructor (config: SpawnerConfig)
      ensures this.config == config && currentPlatform == null
      ensures State() == InitialSpawner()
    {
      this.config := config;
      isSpawning, canSpawn := false, true;
      currentPlatform, currentPlatformCount, wait := null, 0, 0;
    }

    /**
     * SpawnPlatform: instantiates the prefab; a FallingPlatform on the new
     * object is subscribed to in pool mode only. (The source also calls
     * `FallingPlatform.Init(this)`, which FallingPlatform does not declare;
     * that call is not part of this model.)
     */
    method SpawnPlatform() returns (obj: GameObject?, platform: FallingPlatform?)
      modifies this
      ensures State() == SpawnerSpawn(config, old(State()))
      ensures (obj != null) == config.prefab.Template?
      ensures obj != null ==> fresh(obj) && obj.alive
      ensures (platform != null) == (config.prefab.Template? && config.prefab.hasFallingPlatform)
      ensures platform != null ==>
        fresh(platform) && platform.host == obj && platform.config == config.prefab.platform &&
        platform.State() == NewPlatform()
      ensures platform != null ==> platform.listener == (if config.oneAtATime then null else this)
      ensures if config.oneAtATime && obj != null then currentPlatform == obj
              else currentPlatform == old(currentPlatform)
    {
      if config.prefab.NoPrefab? {
        return null, null;
      }
      obj := new GameObject();
      platform := null;
      if config.prefab.hasFallingPlatform {
        platform := new FallingPlatform(config.prefab.platform, obj);
        if !config.oneAtATime {
          platform.Subscribe(this);
        }
      }
      if config.oneAtATime {
        currentPlatform := obj;
      } else {
        currentPlatformCount := currentPlatformCount + 1;
      }
    }

    /** One iteration of SpawnRoutine's loop body. */
    method LoopBody() returns (obj: GameObject?, platform: FallingPlatform?)
      modifies this
      ensures State() == SpawnerIteration(config, old(State()))
      ensures obj != null <==> WillSpawn(config, old(State())) && config.prefab.Template?
      ensures obj != null ==> fresh(obj) && obj.alive
      ensures platform != null ==>
        fresh(platform) && platform.host == obj && platform.State() == NewPlatform() &&
        platform.listener == (if config.oneAtATime then null else this)
      ensures if config.oneAtATime && obj != null then currentPlatform == obj
              else currentPlatform == old(currentPlatform)
    {
      obj, platform := null, null;
      if canSpawn {
        if config.oneAtATime {
          if currentPlatform == null || !currentPlatform.alive {
            obj, platform := SpawnPlatform();
          }
        } else {
          if currentPlatformCount < config.maxPlatforms {
            obj, platform := SpawnPlatform();
          }
        }
      }
    }

    method StartSpawning() returns (obj: GameObject?, platform: FallingPlatform?)
      modifies this
      ensures State() == SpawnerStart(config, old(State()))
      ensures old(isSpawning) ==> obj == null && unchanged(this)
      ensures obj != null ==> fresh(obj) && obj.alive
      ensures platform != null ==>
        fresh(platform) && platform.host == obj && platform.State() == NewPlatform() &&
        platform.listener == (if config.oneAtATime then null else this)
      ensures if config.oneAtATime && obj != null then currentPlatform == obj
              else currentPlatform == old(currentPlatform)
    {
      obj, platform := null, null;
      if !isSpawning {
        isSpawning := true;
        obj, platform := LoopBody();
        wait := config.spawnInterval;
      }
    }

    method Start() returns (obj: GameObject?, platform: FallingPlatform?)
      modifies this
      ensures State() == SpawnerAutoStart(config, old(State()))
      ensures obj != null ==> fresh(obj) && obj.alive
      ensures platform != null ==>
        fresh(platform) && platform.host == obj && platform.State() == NewPlatform() &&
        platform.listener == (if config.oneAtATime then null else this)
      ensures if config.oneAtATime && obj != null then currentPlatform == obj
              else currentPlatform == old(currentPlatform)
    {
      obj, platform := null, null;
      if config.autoStart {
        obj, platform := StartSpawning();
      }
    }

    /** StopSpawning: `isSpawning := false` and the loop ends; nothing else changes. */
    method StopSpawning()
      modifies this`isSpawning
      ensures State() == SpawnerStop(old(State()))
    {
      isSpawning := false;
    }

    /** One tick of the running loop. */
    method Tick() returns (obj: GameObject?, platform: FallingPlatform?)
      modifies this
      ensures State() == SpawnerTick(config, old(State()))
      ensures obj != null ==> fresh(obj) && obj.alive
      ensures platform != null ==>
        fresh(platform) && platform.host == obj && platform.State() == NewPlatform() &&
        platform.listener == (if config.oneAtATime then null else this)
      ensures if config.oneAtATime && obj != null then currentPlatform == obj
              else currentPlatform == old(currentPlatform)
    {
      obj, platform := null, null;
      if !isSpawning {
        return;
      }
      if wait > 1 {
        wait := wait - 1;
      } else {
        obj, platform := LoopBody();
        wait := config.spawnInterval;
      }
    }

    method OnPlatformDestroyed()
      modifies this`currentPlatformCount
      ensures currentPlatformCount == old(currentPlatformCount) - 1
    {
      currentPlatformCount := currentPlatformCount - 1;
    }

    method PauseSpawning()
      modifies this`canSpawn
      ensures !canSpawn
    {
      canSpawn := false;
    }

    method ResumeSpawning()
      modifies this`canSpawn
      ensures canSpawn
    {
      canSpawn := true;
    }
  }
}
