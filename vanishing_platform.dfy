/**
 * VanishingPlatform (Assets/Scripts/VanishingPlatform.cs): stepped on from
 * above, the platform shakes for disappearDelay, vanishes (its colliders
 * are switched off) for reappearDelay, and then resets. The two counters
 * survive a freeze, so a frozen cycle picks up in the half it was in.
 *
 * The ground probe is an input `groundHit`; a contact is an input
 * `playerFromAbove` (a player-tagged collision with some contact normal
 * pointing down more steeply than -0.5).
 */
module Vanishing {
  import opened Engine

  /** Serialized settings, durations in ticks; which of the two collider components exist. */
  datatype VanishConfig = VanishConfig(
    canBeFrozen: bool,
    disappearDelay: nat,
    reappearDelay: nat,
    hasTileCollider: bool,
    hasBoxCollider: bool)

  /**
   * Abstract value of a platform. `routine`: ProcessRoutine is running;
   * `jittered`: drawn at a random offset from its original position;
   * `tileEnabled` / `boxEnabled`: the collider components' enabled flags;
   * `unfreezeInvokes`: pending `Invoke(Unfreeze, ...)` calls.
   */
  datatype VanishState = VanishState(
    isFrozen: bool,
    isRunning: bool,
    isVanished: bool,
    shakeTime: nat,
    reappearTime: nat,
    routine: bool,
    jittered: bool,
    tileEnabled: bool,
    boxEnabled: bool,
    unfreezeInvokes: seq<nat>,
    alive: bool)

  function InitialVanishing(): VanishState
  {
    VanishState(false, false, false, 0, 0, false, false, true, true, [], true)
  }

  /** The platform at rest between cycles, with every collider it has enabled. */
  predicate AtRest(c: VanishConfig, s: VanishState)
  {
    && !s.isRunning && !s.isVanished && !s.routine && !s.jittered
    && s.shakeTime == 0 && s.reappearTime == 0
    && (c.hasTileCollider ==> s.tileEnabled) && (c.hasBoxCollider ==> s.boxEnabled)
  }

  /** The states a platform can reach. */
  predicate ValidVanishing(c: VanishConfig, s: VanishState)
  {
    && (s.routine ==> s.isRunning && !s.isFrozen)
    && (s.isRunning && !s.isFrozen ==> s.routine)
    && (!s.isRunning ==> !s.isVanished && s.shakeTime == 0 && s.reappearTime == 0)
    && s.shakeTime <= c.disappearDelay
    && (s.isVanished ==> s.shakeTime == c.disappearDelay)
    && (!s.isVanished ==> s.reappearTime == 0)
    && s.reappearTime <= c.reappearDelay
    && (s.jittered ==> s.routine && !s.isVanished)
    && (c.hasTileCollider ==> (s.tileEnabled <==> !s.isVanished))
    && (c.hasBoxCollider ==> (s.boxEnabled <==> !s.isVanished))
  }

  lemma InitialVanishingValid(c: VanishConfig)
    ensures ValidVanishing(c, InitialVanishing()) && AtRest(c, InitialVanishing())
  {
  }

  /**
   * SetColliderState: every collider component the platform has gets `on`;
   * absent ones and everything else are untouched. Switching the colliders
   * to match whether the platform is vanished keeps it in a reachable state.
   */
  function SetColliders(c: VanishConfig, s: VanishState, on: bool): (r: VanishState)
    ensures c.hasTileCollider ==> r.tileEnabled == on
    ensures c.hasBoxCollider ==> r.boxEnabled == on
    ensures !c.hasTileCollider ==> r.tileEnabled == s.tileEnabled
    ensures !c.hasBoxCollider ==> r.boxEnabled == s.boxEnabled
    ensures r.(tileEnabled := s.tileEnabled, boxEnabled := s.boxEnabled) == s
    ensures ValidVanishing(c, s) && s.isVanished == !on ==> ValidVanishing(c, r)
  {
    s.(tileEnabled := if c.hasTileCollider then on else s.tileEnabled,
       boxEnabled := if c.hasBoxCollider then on else s.boxEnabled)
  }

  /** ResetPlatform: back at rest, colliders on, counters zero, the routine reference dropped. */
  function ResetVanishing(c: VanishConfig, s: VanishState): (r: VanishState)
    ensures AtRest(c, r) && ValidVanishing(c, r)
    ensures r.isFrozen == s.isFrozen && r.unfreezeInvokes == s.unfreezeInvokes && r.alive == s.alive
  {
    SetColliders(c, s, true).(jittered := false, isRunning := false, isVanished := false,
                               shakeTime := 0, reappearTime := 0, routine := false)
  }

  /** The reappear loop: wait while the vanished time is short of reappearDelay, then reset. */
  function ReappearStep(c: VanishConfig, s: VanishState): (r: VanishState)
    ensures s.reappearTime < c.reappearDelay ==> r == s.(reappearTime := s.reappearTime + 1)
    ensures s.reappearTime >= c.reappearDelay ==> r == ResetVanishing(c, s)
    ensures ValidVanishing(c, s) && s.isVanished ==> ValidVanishing(c, r)
  {
    if s.reappearTime < c.reappearDelay then s.(reappearTime := s.reappearTime + 1)
    else ResetVanishing(c, s)
  }

  /**
   * ProcessRoutine up to its next yield. Where it stands is told by
   * isVanished: not vanished, it is in the shake loop, which counts the
   * shake time up to disappearDelay and then vanishes the platform and
   * goes on into the reappear loop; vanished, it is in the reappear loop.
   */
  function ProcessStep(c: VanishConfig, s: VanishState): (r: VanishState)
    ensures r.isFrozen == s.isFrozen && r.unfreezeInvokes == s.unfreezeInvokes && r.alive == s.alive
    ensures !s.isVanished && s.shakeTime < c.disappearDelay ==>
      r == s.(shakeTime := s.shakeTime + 1, jittered := true)
    ensures s.isVanished ==> r == ReappearStep(c, s)
    ensures ValidVanishing(c, s) && s.routine ==> ValidVanishing(c, r)
  {
    if !s.isVanished then
      if s.shakeTime < c.disappearDelay then s.(shakeTime := s.shakeTime + 1, jittered := true)
      else ReappearStep(c, VanishNow(c, s))
    else ReappearStep(c, s)
  }

  /** The end of the shake loop: back at the original position, colliders off, vanished. */
  function VanishNow(c: VanishConfig, s: VanishState): (r: VanishState)
    ensures r.isVanished && !r.jittered && r.reappearTime == s.reappearTime && r.shakeTime == s.shakeTime
    ensures r.isRunning == s.isRunning && r.routine == s.routine
    ensures r.isFrozen == s.isFrozen && r.unfreezeInvokes == s.unfreezeInvokes && r.alive == s.alive
    ensures ValidVanishing(c, s) && s.routine && !s.isVanished && s.shakeTime >= c.disappearDelay ==> ValidVanishing(c, r)
  {
    SetColliders(c, s.(jittered := false, isVanished := true), false)
  }

  /** StartCoroutine(ProcessRoutine()): marks the cycle running and runs its first step at once. */
  function StartProcess(c: VanishConfig, s: VanishState): (r: VanishState)
    ensures r.isFrozen == s.isFrozen && r.alive == s.alive && r.unfreezeInvokes == s.unfreezeInvokes
    ensures !s.isVanished && s.shakeTime < c.disappearDelay ==>
      r.isRunning && r.routine && r.jittered && !r.isVanished && r.shakeTime == s.shakeTime + 1
    ensures ValidVanishing(c, s) && !s.isFrozen ==> ValidVanishing(c, r)
  {
    ProcessStep(c, s.(isRunning := true, routine := true))
  }

  /**
   * OnCollisionEnter2D: ignored while frozen or while a cycle runs;
   * otherwise a contact from above starts a fresh cycle.
   */
  function ContactVanishing(c: VanishConfig, s: VanishState, playerFromAbove: bool): (r: VanishState)
    ensures s.isFrozen || s.isRunning || !playerFromAbove ==> r == s
    ensures !s.isFrozen && !s.isRunning && playerFromAbove ==>
      r == StartProcess(c, s.(shakeTime := 0, reappearTime := 0, isVanished := false))
    ensures ValidVanishing(c, s) ==> ValidVanishing(c, r)
  {
    if s.isFrozen || s.isRunning || !playerFromAbove then s
    else StartProcess(c, s.(shakeTime := 0, reappearTime := 0, isVanished := false))
  }

  /** FixedUpdate: the ground probe runs only unfrozen and only with a collider to take bounds from; a hit destroys. */
  function ProbeVanishing(c: VanishConfig, s: VanishState, groundHit: bool): (r: VanishState)
    ensures r.alive <==> s.alive && !(!s.isFrozen && (c.hasTileCollider || c.hasBoxCollider) && groundHit)
    ensures r.(alive := s.alive) == s
  {
    if !s.isFrozen && (c.hasTileCollider || c.hasBoxCollider) && groundHit then s.(alive := false) else s
  }

  /**
   * Freeze: no-op when the platform cannot be frozen or already is.
   * Otherwise the routine stops, the platform snaps back to its position
   * and an Unfreeze is scheduled; the counters, isRunning and isVanished
   * are kept.
   */
  function FreezeVanishing(c: VanishConfig, s: VanishState, duration: nat): (r: VanishState)
    ensures !c.canBeFrozen || s.isFrozen ==> r == s
    ensures c.canBeFrozen && !s.isFrozen ==>
      && r.isFrozen && !r.routine && !r.jittered && r.unfreezeInvokes == s.unfreezeInvokes + [duration]
    ensures r.isRunning == s.isRunning && r.isVanished == s.isVanished
    ensures r.shakeTime == s.shakeTime && r.reappearTime == s.reappearTime
    ensures ValidVanishing(c, s) ==> ValidVanishing(c, r)
  {
    if !c.canBeFrozen || s.isFrozen then s
    else s.(routine := false, isFrozen := true, jittered := false,
            unfreezeInvokes := s.unfreezeInvokes + [duration])
  }

  /** Unfreeze: no-op unless frozen; restarts the cycle if one was running. */
  function UnfreezeVanishing(c: VanishConfig, s: VanishState): (r: VanishState)
    ensures !s.isFrozen ==> r == s
    ensures s.isFrozen && !s.isRunning ==> r == s.(isFrozen := false)
    ensures s.isFrozen && s.isRunning ==> r == StartProcess(c, s.(isFrozen := false))
    ensures ValidVanishing(c, s) ==> ValidVanishing(c, r)
  {
    if !s.isFrozen then s
    else if s.isRunning then StartProcess(c, s.(isFrozen := false))
    else s.(isFrozen := false)
  }

  /**
   * One tick of a live platform: a running routine steps, the Unfreeze
   * calls due at the start of the tick run, then FixedUpdate.
   */
  function TickVanishing(c: VanishConfig, s: VanishState, groundHit: bool): (r: VanishState)
    ensures !s.alive ==> r == s
    ensures ValidVanishing(c, s) ==> ValidVanishing(c, r)
  {
    if !s.alive then s
    else
      var s0 := s.(unfreezeInvokes := Advance(s.unfreezeInvokes));
      var s1 := if s0.routine then ProcessStep(c, s0) else s0;
      var s2 := if Fires(s.unfreezeInvokes) then UnfreezeVanishing(c, s1) else s1;
      ProbeVanishing(c, s2, groundHit)
  }

  /** A tick in which the ground probe finds nothing; the platform makes no spawner calls. */
  function QuietTickVanishing(c: VanishConfig): VanishState -> Step<VanishState>
  {
    s => Step(TickVanishing(c, s, false), [])
  }

  /** A quiet tick of a running, unfrozen platform is one step of its routine. */
  lemma QuietTickRuns(c: VanishConfig, s: VanishState)
    requires ValidVanishing(c, s) && s.alive && !s.isFrozen && s.unfreezeInvokes == []
    ensures QuietTickVanishing(c)(s).next == (if s.routine then ProcessStep(c, s) else s)
  {
    assert Advance([]) == [] && !Fires([]);
  }

  /**
   * The shake half: a shaking platform left alone counts its shake time
   * up to disappearDelay, one per tick, without vanishing.
   */
  lemma {:induction false} ShakeHalfRunsOut(c: VanishConfig, s: VanishState)
    requires ValidVanishing(c, s) && s.alive && s.isRunning && !s.isFrozen && !s.isVanished
    requires s.unfreezeInvokes == []
    ensures var w := Ticks(QuietTickVanishing(c), s, c.disappearDelay - s.shakeTime).next;
      w == s.(shakeTime := c.disappearDelay, jittered := s.jittered || s.shakeTime < c.disappearDelay)
    decreases c.disappearDelay - s.shakeTime
  {
    var tick := QuietTickVanishing(c);
    var n := c.disappearDelay - s.shakeTime;
    if n > 0 {
      QuietTickRuns(c, s);
      var t := tick(s).next;
      ShakeHalfRunsOut(c, t);
      TicksAdd(tick, s, 1, n - 1);
    }
  }

  /**
   * The reappear half: a vanished platform left alone waits out
   * reappearDelay and then, on the tick after, is back at rest.
   */
  lemma {:induction false} ReappearHalfRunsOut(c: VanishConfig, s: VanishState)
    requires ValidVanishing(c, s) && s.alive && s.isRunning && !s.isFrozen && s.isVanished
    requires s.unfreezeInvokes == []
    ensures var w := Ticks(QuietTickVanishing(c), s, c.reappearDelay - s.reappearTime).next;
      w == s.(reappearTime := c.reappearDelay)
    ensures var w := Ticks(QuietTickVanishing(c), s, c.reappearDelay - s.reappearTime + 1).next;
      AtRest(c, w) && w.alive && !w.isFrozen && w.unfreezeInvokes == []
    decreases c.reappearDelay - s.reappearTime
  {
    var tick := QuietTickVanishing(c);
    var n := c.reappearDelay - s.reappearTime;
    QuietTickRuns(c, s);
    TicksAdd(tick, s, 1, n);
    if n > 0 {
      var t := tick(s).next;
      ReappearHalfRunsOut(c, t);
      TicksAdd(tick, s, 1, n - 1);
    }
  }

  /**
   * A whole cycle: a running platform still in its shake half is back at
   * rest after the rest of the shake half and reappearDelay + 1 ticks.
   */
  lemma CycleReturnsToRest(c: VanishConfig, s: VanishState)
    requires ValidVanishing(c, s) && s.alive && s.isRunning && !s.isFrozen && !s.isVanished
    requires s.unfreezeInvokes == []
    ensures var w := Ticks(QuietTickVanishing(c), s, (c.disappearDelay - s.shakeTime) + (c.reappearDelay + 1)).next;
      AtRest(c, w) && w.alive && !w.isFrozen
  {
    var n := c.disappearDelay - s.shakeTime;
    ShakeHalfRunsOut(c, s);
    TicksAdd(QuietTickVanishing(c), s, n, c.reappearDelay + 1);
    ShakenOutReturnsToRest(c, Ticks(QuietTickVanishing(c), s, n).next);
  }

  /** A platform at the end of its shake half is back at rest reappearDelay + 1 ticks later. */
  lemma ShakenOutReturnsToRest(c: VanishConfig, w: VanishState)
    requires ValidVanishing(c, w) && w.alive && w.isRunning && !w.isFrozen && !w.isVanished
    requires w.unfreezeInvokes == [] && w.shakeTime == c.disappearDelay
    ensures var r := Ticks(QuietTickVanishing(c), w, c.reappearDelay + 1).next;
      AtRest(c, r) && r.alive && !r.isFrozen
  {
    var tick := QuietTickVanishing(c);
    var u := VanishNow(c, w);
    VanishingTick(c, w);
    TicksAdd(tick, w, 1, c.reappearDelay);
    TicksAdd(tick, u, 1, c.reappearDelay);
    ReappearHalfRunsOut(c, u);
  }

  /** The tick that ends the shake half is the first tick of the reappear half. */
  lemma VanishingTick(c: VanishConfig, w: VanishState)
    requires ValidVanishing(c, w) && w.alive && w.isRunning && !w.isFrozen && !w.isVanished
    requires w.unfreezeInvokes == [] && w.shakeTime == c.disappearDelay
    ensures ValidVanishing(c, VanishNow(c, w))
    ensures QuietTickVanishing(c)(w).next == QuietTickVanishing(c)(VanishNow(c, w)).next
  {
    QuietTickRuns(c, w);
    QuietTickRuns(c, VanishNow(c, w));
  }

  /**
   * The counters survive a freeze: frozen and then unfrozen, a running
   * platform takes exactly the routine step an uninterrupted tick would
   * have taken, in the half it was in.
   */
  lemma FreezeKeepsHalf(c: VanishConfig, s: VanishState, duration: nat)
    requires ValidVanishing(c, s) && c.canBeFrozen && !s.isFrozen && s.isRunning
    ensures UnfreezeVanishing(c, FreezeVanishing(c, s, duration)) ==
      ProcessStep(c, s).(unfreezeInvokes := s.unfreezeInvokes + [duration])
  {
    var x := s.(jittered := false, unfreezeInvokes := s.unfreezeInvokes + [duration]);
    assert FreezeVanishing(c, s, duration).(isFrozen := false, isRunning := true, routine := true) == x;
    assert ProcessStep(c, x) == ProcessStep(c, s).(unfreezeInvokes := x.unfreezeInvokes);
  }

  /** The tick on which a freeze's Unfreeze runs does what the first tick without the freeze would have done. */
  lemma ThawTick(c: VanishConfig, s: VanishState, d: nat)
    requires ValidVanishing(c, s) && s.alive && c.canBeFrozen && !s.isFrozen && s.unfreezeInvokes == []
    ensures QuietTickVanishing(c)(FreezeVanishing(c, s, d).(unfreezeInvokes := [1])).next == QuietTickVanishing(c)(s).next
  {
    var g := FreezeVanishing(c, s, d).(unfreezeInvokes := [1]);
    var g0 := g.(unfreezeInvokes := []);
    UnfreezeTick(c, g);
    QuietTickRuns(c, s);
    if s.isRunning {
      assert g0.(isFrozen := false, isRunning := true, routine := true) == s.(jittered := false);
      assert UnfreezeVanishing(c, g0) == ProcessStep(c, s);
    } else {
      assert g0.(isFrozen := false) == s;
    }
  }

  /** The tick of a frozen platform whose one Unfreeze is due is that Unfreeze. */
  lemma UnfreezeTick(c: VanishConfig, g: VanishState)
    requires g.alive && g.isFrozen && !g.routine && g.unfreezeInvokes == [1]
    ensures QuietTickVanishing(c)(g).next == UnfreezeVanishing(c, g.(unfreezeInvokes := []))
  {
    AdvancePair(1, 0);
  }

  /**
   * A freeze of duration `d` costs the platform exactly `d - 1` ticks: `d`
   * ticks after the freeze it is where one unfrozen tick would have taken it.
   */
  lemma FreezeDelaysByDuration(c: VanishConfig, s: VanishState, d: nat)
    requires ValidVanishing(c, s) && s.alive && c.canBeFrozen && !s.isFrozen && s.unfreezeInvokes == []
    requires d >= 1
    ensures Ticks(QuietTickVanishing(c), FreezeVanishing(c, s, d), d).next == QuietTickVanishing(c)(s).next
  {
    var tick := QuietTickVanishing(c);
    var fr := FreezeVanishing(c, s, d);
    var f: nat -> VanishState := (m: nat) => fr.(unfreezeInvokes := [m]);
    forall m | 1 < m <= d
      ensures tick(f(m)) == Step(f(m - 1), [])
    {
      FrozenTickVanishing(c, fr, m);
    }
    assert f(d) == fr;
    CountDownThen(tick, f, d);
    ThawTick(c, s, d);
  }

  /** A quiet tick of a frozen platform whose Unfreeze is `k > 1` ticks away only counts down. */
  lemma FrozenTickVanishing(c: VanishConfig, s: VanishState, k: nat)
    requires ValidVanishing(c, s) && s.alive && s.isFrozen && k > 1
    ensures QuietTickVanishing(c)(s.(unfreezeInvokes := [k])) == Step(s.(unfreezeInvokes := [k - 1]), [])
  {
    AdvancePair(k, 0);
  }

  /** A frozen platform waiting on one Unfreeze `k` ticks away changes nothing but the countdown for any `j < k` ticks. */
  lemma FrozenPlatformWaits(c: VanishConfig, s: VanishState, k: nat, j: nat)
    requires ValidVanishing(c, s) && s.alive && s.isFrozen && s.unfreezeInvokes == [k]
    requires j < k
    ensures Ticks(QuietTickVanishing(c), s, j) == Step(s.(unfreezeInvokes := [k - j]), [])
  {
    var tick := QuietTickVanishing(c);
    var f: nat -> VanishState := (m: nat) => s.(unfreezeInvokes := [m]);
    forall m | 1 < m <= k
      ensures tick(f(m)) == Step(f(m - 1), [])
    {
      FrozenTickVanishing(c, s, m);
    }
    assert f(k) == s;
    CountDown(tick, f, k, j);
  }

  // ---------------------------------------------------------------------------
  // The platform object
  // ---------------------------------------------------------------------------

  class VanishingPlatform {
    const config: VanishConfig
    var isFrozen: bool
    var isRunning: bool
    var isVanished: bool
    var currentShakeTime: nat
    var currentReappearTime: nat
    var processCoroutine: bool
    var jittered: bool
    var tileColliderEnabled: bool
    var boxColliderEnabled: bool
    var unfreezeInvokes: seq<nat>
    var alive: bool

    function State(): VanishState
      reads this
    {
      VanishState(isFrozen, isRunning, isVanished, currentShakeTime, currentReappearTime,
                  processCoroutine, jittered, tileColliderEnabled, boxColliderEnabled,
                  unfreezeInvokes, alive)
    }

    /** A placed platform at rest; Start only caches components and the original position and colour. */
    constructor (config: VanishConfig)
      ensures this.config == config && State() == InitialVanishing()
    {
      this.config := config;
      isFrozen, isRunning, isVanished := false, false, false;
      currentShakeTime, currentReappearTime := 0, 0;
      processCoroutine, jittered := false, false;
      tileColliderEnabled, boxColliderEnabled := true, true;
      unfreezeInvokes, alive := [], true;
    }

    method SetColliderState(on: bool)
      modifies this`tileColliderEnabled, this`boxColliderEnabled
      ensures State() == SetColliders(config, old(State()), on)
    {
      if config.hasTileCollider {
        tileColliderEnabled := on;
      }
      if config.hasBoxCollider {
        boxColliderEnabled := on;
      }
    }

    method ResetPlatform()
      modifies this
      ensures State() == ResetVanishing(config, old(State()))
    {
      jittered := false;
      SetColliderState(true);
      isRunning := false;
      isVanished := false;
      currentShakeTime := 0;
      currentReappearTime := 0;
      processCoroutine := false;
    }

    /** One step of ProcessRoutine: the shake loop, the vanishing, the reappear loop, the reset. */
    method ProcessRoutineStep()
      modifies this
      ensures State() == ProcessStep(config, old(State()))
    {
      if !isVanished {
        if currentShakeTime < config.disappearDelay {
          currentShakeTime := currentShakeTime + 1;
          jittered := true;
          return;
        }
        jittered := false;
        isVanished := true;
        SetColliderState(false);
        assert State() == VanishNow(config, old(State()));
      }
      if currentReappearTime < config.reappearDelay {
        currentReappearTime := currentReappearTime + 1;
      } else {
        ResetPlatform();
      }
    }

    method StartProcessRoutine()
      modifies this
      ensures State() == StartProcess(config, old(State()))
    {
      isRunning := true;
      processCoroutine := true;
      ProcessRoutineStep();
    }

    method OnCollisionEnter2D(playerFromAbove: bool)
      modifies this
      ensures State() == ContactVanishing(config, old(State()), playerFromAbove)
    {
      if isFrozen || isRunning {
        return;
      }
      if playerFromAbove {
        currentShakeTime := 0;
        currentReappearTime := 0;
        isVanished := false;
        StartProcessRoutine();
      }
    }

    /** FixedUpdate with CheckGroundCollision. */
    method FixedUpdate(groundHit: bool)
      modifies this`alive
      ensures State() == ProbeVanishing(config, old(State()), groundHit)
    {
      if !isFrozen && (config.hasTileCollider || config.hasBoxCollider) && groundHit {
        alive := false;
      }
    }

    method Freeze(duration: nat)
      modifies this
      ensures State() == FreezeVanishing(config, old(State()), duration)
    {
      if !config.canBeFrozen || isFrozen {
        return;
      }
      processCoroutine := false;
      isFrozen := true;
      jittered := false;
      unfreezeInvokes := unfreezeInvokes + [duration];
    }

    method Unfreeze()
      modifies this
      ensures State() == UnfreezeVanishing(config, old(State()))
    {
      if !isFrozen {
        return;
      }
      isFrozen := false;
      if isRunning {
        StartProcessRoutine();
      }
    }

    method Tick(groundHit: bool)
      modifies this
      ensures State() == TickVanishing(config, old(State()), groundHit)
    {
      if !alive {
        return;
      }
      var dueUnfreeze := Fires(unfreezeInvokes);
      unfreezeInvokes := Advance(unfreezeInvokes);
      if processCoroutine {
        ProcessRoutineStep();
      }
      if dueUnfreeze {
        Unfreeze();
      }
      FixedUpdate(groundHit);
    }
  }
}
