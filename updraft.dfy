/**
 * Updraft (Assets/Scripts/Updraft.cs): a fan that lifts the player while
 * it is working. TurnOn and TurnOff switch it; a freeze stops the lift and
 * the visuals for a while and never changes whether it is working.
 */
module Updrafts {
  import opened Engine

  /** Serialized settings, and which optional components are present. */
  datatype UpdraftConfig = UpdraftConfig(
    startActive: bool,
    hasSprite: bool,
    hasParticles: bool,
    hasAnimator: bool)

  datatype Particles = Playing | Paused | Stopped

  /** The sprite colour: as authored, grey while frozen, white after a freeze. */
  datatype Tint = Original | Gray | White

  /**
   * Abstract value of an updraft. `freezeLeft`: the running FreezeRoutine
   * and the ticks its wait still lasts; `animatorIsOn`: the animator's IsOn
   * parameter; `animatorRunning`: animator speed 1 (false: 0).
   */
  datatype UpdraftState = UpdraftState(
    isWorking: bool,
    isFrozen: bool,
    freezeLeft: Option<nat>,
    particles: Particles,
    animatorIsOn: bool,
    animatorRunning: bool,
    tint: Tint)

  function PlacedUpdraft(): UpdraftState
  {
    UpdraftState(false, false, None, Stopped, false, true, Original)
  }

  /** The particles and the animator show the working state. */
  predicate VisualsShowWorking(c: UpdraftConfig, s: UpdraftState)
  {
    && (c.hasParticles ==> s.particles == (if s.isWorking then Playing else Stopped))
    && (c.hasAnimator ==> s.animatorIsOn == s.isWorking)
  }

  /** The states a started updraft can reach. */
  predicate ValidUpdraft(c: UpdraftConfig, s: UpdraftState)
  {
    && (s.isFrozen <==> s.freezeLeft.Some?)
    && (!s.isFrozen ==> VisualsShowWorking(c, s))
    && (c.hasParticles && s.isFrozen ==> s.particles == Paused)
    && (c.hasAnimator ==> (s.animatorRunning <==> !s.isFrozen))
    && (c.hasSprite ==> (s.tint == Gray <==> s.isFrozen))
  }

  /** UpdateVisuals: nothing while frozen; otherwise particles and animator follow the working state. */
  function VisualsUpdraft(c: UpdraftConfig, s: UpdraftState): (r: UpdraftState)
    ensures s.isFrozen ==> r == s
    ensures !s.isFrozen ==> VisualsShowWorking(c, r)
    ensures r.isWorking == s.isWorking && r.isFrozen == s.isFrozen && r.freezeLeft == s.freezeLeft
    ensures r.animatorRunning == s.animatorRunning && r.tint == s.tint
  {
    if s.isFrozen then s
    else
      s.(particles := if c.hasParticles then (if s.isWorking then Playing else Stopped) else s.particles,
         animatorIsOn := if c.hasAnimator then s.isWorking else s.animatorIsOn)
  }

  /** Start: working as configured, visuals to match. */
  function StartUpdraft(c: UpdraftConfig, s: UpdraftState): (r: UpdraftState)
    ensures r.isWorking == c.startActive
    ensures s == PlacedUpdraft() ==> ValidUpdraft(c, r)
  {
    VisualsUpdraft(c, s.(isWorking := c.startActive))
  }

  /** TurnOn (`on`) and TurnOff: set the working state, frozen or not, and refresh the visuals. */
  function SetWorking(c: UpdraftConfig, s: UpdraftState, on: bool): (r: UpdraftState)
    ensures r.isWorking == on && r.isFrozen == s.isFrozen && r.freezeLeft == s.freezeLeft
    ensures s.isFrozen ==> r == s.(isWorking := on)
    ensures ValidUpdraft(c, s) ==> ValidUpdraft(c, r)
  {
    VisualsUpdraft(c, s.(isWorking := on))
  }

  /**
   * Freeze: ignored while frozen; otherwise FreezeRoutine starts: frozen,
   * grey, particles paused, animator stopped, waiting `duration`.
   */
  function FreezeUpdraft(c: UpdraftConfig, s: UpdraftState, duration: nat): (r: UpdraftState)
    ensures s.isFrozen ==> r == s
    ensures !s.isFrozen ==> r.isFrozen && r.freezeLeft == Some(duration)
    ensures r.isWorking == s.isWorking
    ensures ValidUpdraft(c, s) ==> ValidUpdraft(c, r)
  {
    if s.isFrozen then s
    else
      s.(isFrozen := true,
         tint := if c.hasSprite then Gray else s.tint,
         particles := if c.hasParticles then Paused else s.particles,
         animatorRunning := if c.hasAnimator then false else s.animatorRunning,
         freezeLeft := Some(duration))
  }

  /** The end of FreezeRoutine: unfrozen, white, animator running, visuals back in line with the working state. */
  function ExpireUpdraft(c: UpdraftConfig, s: UpdraftState): (r: UpdraftState)
    ensures !r.isFrozen && r.freezeLeft == None && r.isWorking == s.isWorking
    ensures VisualsShowWorking(c, r)
    ensures ValidUpdraft(c, r)
  {
    VisualsUpdraft(c, s.(isFrozen := false, freezeLeft := None,
                         tint := if c.hasSprite then White else s.tint,
                         animatorRunning := if c.hasAnimator then true else s.animatorRunning))
  }

  /** One tick: a FreezeRoutine whose wait is over ends; otherwise its wait shortens. */
  function TickUpdraft(c: UpdraftConfig, s: UpdraftState): (r: UpdraftState)
    ensures s.freezeLeft.None? ==> r == s
    ensures r.isWorking == s.isWorking
    ensures ValidUpdraft(c, s) ==> ValidUpdraft(c, r)
  {
    match s.freezeLeft
    case None => s
    case Some(k) => if k <= 1 then ExpireUpdraft(c, s) else s.(freezeLeft := Some(k - 1))
  }

  /** OnTriggerStay2D: lift is applied to a player with a Rigidbody2D only while working and not frozen. */
  function LiftApplied(s: UpdraftState, isPlayer: bool, hasRigidbody: bool): bool
  {
    if !s.isWorking || s.isFrozen then false else isPlayer && hasRigidbody
  }

  /** A tick of an updraft; it makes no spawner calls. */
  function UpdraftTick(c: UpdraftConfig): UpdraftState -> Step<UpdraftState>
  {
    s => Step(TickUpdraft(c, s), [])
  }

  /** A frozen updraft `k` ticks from the end of its freeze stays frozen, lifting nobody, for `k - 1` ticks. */
  lemma {:induction false} FrozenUpdraftWaits(c: UpdraftConfig, s: UpdraftState, k: nat)
    requires ValidUpdraft(c, s) && s.freezeLeft == Some(k) && k >= 1
    ensures Ticks(UpdraftTick(c), s, k - 1).next == s.(freezeLeft := Some(1))
    decreases k
  {
    if k > 1 {
      var tick := UpdraftTick(c);
      assert tick(s).next == s.(freezeLeft := Some(k - 1));
      FrozenUpdraftWaits(c, tick(s).next, k - 1);
      TicksAdd(tick, s, 1, k - 2);
    }
  }

  /**
   * A switch made during a freeze takes effect when the freeze ends: an
   * updraft turned on or off while frozen shows the new state once the
   * freeze runs out, and lifts exactly when it was turned on.
   */
  lemma SwitchDuringFreezeShowsAtExpiry(c: UpdraftConfig, s: UpdraftState, k: nat, on: bool)
    requires ValidUpdraft(c, s) && s.freezeLeft == Some(k) && k >= 1
    ensures var w := Ticks(UpdraftTick(c), SetWorking(c, s, on), k).next;
      && !w.isFrozen && w.isWorking == on && VisualsShowWorking(c, w)
      && (LiftApplied(w, true, true) <==> on)
  {
    var tick := UpdraftTick(c);
    var t := SetWorking(c, s, on);
    FrozenUpdraftWaits(c, t, k);
    TicksAdd(tick, t, k - 1, 1);
  }

  /** A freeze never changes whether the updraft is working, however many ticks pass. */
  lemma {:induction false} FreezeKeepsWorking(c: UpdraftConfig, s: UpdraftState, d: nat, n: nat)
    ensures Ticks(UpdraftTick(c), FreezeUpdraft(c, s, d), n).next.isWorking == s.isWorking
    decreases n
  {
    if n > 0 {
      var tick := UpdraftTick(c);
      var f := FreezeUpdraft(c, s, d);
      TicksAdd(tick, f, 1, n - 1);
      TicksKeepWorking(c, tick(f).next, n - 1);
    }
  }

  /** Ticks never change whether the updraft is working. */
  lemma {:induction false} TicksKeepWorking(c: UpdraftConfig, s: UpdraftState, n: nat)
    ensures Ticks(UpdraftTick(c), s, n).next.isWorking == s.isWorking
    decreases n
  {
    if n > 0 {
      var tick := UpdraftTick(c);
      TicksKeepWorking(c, tick(s).next, n - 1);
    }
  }

  // ---------------------------------------------------------------------------
  // The updraft object
  // ---------------------------------------------------------------------------

  class Updraft {
    const config: UpdraftConfig
    var isWorking: bool
    var isFrozen: bool
    var freezeRoutine: Option<nat>
    var particles: Particles
    var animatorIsOn: bool
    var animatorRunning: bool
    var tint: Tint

    function State(): UpdraftState
      reads this
    {
      UpdraftState(isWorking, isFrozen, freezeRoutine, particles, animatorIsOn, animatorRunning, tint)
    }

    constructor (config: UpdraftConfig)
      ensures this.config == config && State() == PlacedUpdraft()
    {
      this.config := config;
      isWorking, isFrozen, freezeRoutine := false, false, None;
      particles, animatorIsOn, animatorRunning, tint := Stopped, false, true, Original;
    }

    method UpdateVisuals()
      modifies this`particles, this`animatorIsOn
      ensures State() == VisualsUpdraft(config, old(State()))
    {
      if isFrozen {
        return;
      }
      if config.hasParticles {
        particles := if isWorking then Playing else Stopped;
      }
      if config.hasAnimator {
        animatorIsOn := isWorking;
      }
    }

    method Start()
      modifies this`isWorking, this`particles, this`animatorIsOn
      ensures State() == StartUpdraft(config, old(State()))
    {
      isWorking := config.startActive;
      UpdateVisuals();
    }

    method TurnOn()
      modifies this`isWorking, this`particles, this`animatorIsOn
      ensures State() == SetWorking(config, old(State()), true)
    {
      isWorking := true;
      UpdateVisuals();
    }

    method TurnOff()
      modifies this`isWorking, this`particles, this`animatorIsOn
      ensures State() == SetWorking(config, old(State()), false)
    {
      isWorking := false;
      UpdateVisuals();
    }

    /** Freeze, with FreezeRoutine up to its wait. */
    method Freeze(duration: nat)
      modifies this`isFrozen, this`tint, this`particles, this`animatorRunning, this`freezeRoutine
      ensures State() == FreezeUpdraft(config, old(State()), duration)
    {
      if isFrozen {
        return;
      }
      isFrozen := true;
      if config.hasSprite {
        tint := Gray;
      }
      if config.hasParticles {
        particles := Paused;
      }
      if config.hasAnimator {
        animatorRunning := false;
      }
      freezeRoutine := Some(duration);
    }

    /** FreezeRoutine after its wait. */
    method EndFreeze()
      modifies this`isFrozen, this`freezeRoutine, this`tint, this`animatorRunning, this`particles, this`animatorIsOn
      ensures State() == ExpireUpdraft(config, old(State()))
    {
      isFrozen := false;
      freezeRoutine := None;
      if config.hasSprite {
        tint := White;
      }
      if config.hasAnimator {
        animatorRunning := true;
      }
      UpdateVisuals();
    }

    method OnTriggerStay2D(isPlayer: bool, hasRigidbody: bool) returns (lifted: bool)
      ensures lifted == LiftApplied(State(), isPlayer, hasRigidbody)
      ensures lifted <==> isWorking && !isFrozen && isPlayer && hasRigidbody
    {
      if !isWorking || isFrozen {
        return false;
      }
      lifted := isPlayer && hasRigidbody;
    }

    method Tick()
      modifies this`isFrozen, this`freezeRoutine, this`tint, this`animatorRunning, this`particles, this`animatorIsOn
      ensures State() == TickUpdraft(config, old(State()))
    {
      match freezeRoutine
      case None =>
      case Some(k) =>
        if k <= 1 {
          EndFreeze();
        } else {
          freezeRoutine := Some(k - 1);
        }
    }
  }
}
