/**
 * RotatingFan (Assets/Scripts/RotatingFan.cs): a spinning fan that blocks
 * the player. A freeze makes its collider a trigger the player can pass
 * through and stops its animation; unlike the other hazards, freezing it
 * again while frozen restarts the freeze with the new duration.
 */
module Fans {
  import opened Engine

  /** Which optional components are present. */
  datatype FanConfig = FanConfig(hasCollider: bool, hasAnimator: bool, hasSprite: bool)

  /** The sprite colour: the colour saved at Start, or translucent yellow while frozen. */
  datatype FanTint = OriginalColor | FrozenYellow

  /**
   * Abstract value of a fan. `freezeLeft`: the running FreezeRoutine and the
   * ticks its wait still lasts; `animatorRunning`: animator speed 1 (false: 0).
   */
  datatype FanState = FanState(
    isFrozen: bool,
    freezeLeft: Option<nat>,
    isTrigger: bool,
    animatorRunning: bool,
    tint: FanTint)

  function PlacedFan(): FanState
  {
    FanState(false, None, false, true, OriginalColor)
  }

  /** The states a started fan can reach: every component shows whether it is frozen. */
  predicate ValidFan(c: FanConfig, s: FanState)
  {
    && (s.isFrozen <==> s.freezeLeft.Some?)
    && (c.hasCollider ==> (s.isTrigger <==> s.isFrozen))
    && (c.hasAnimator ==> (s.animatorRunning <==> !s.isFrozen))
    && (c.hasSprite ==> (s.tint == FrozenYellow <==> s.isFrozen))
  }

  /** Start: the animator runs. */
  function StartFan(c: FanConfig, s: FanState): (r: FanState)
    ensures s == PlacedFan() ==> ValidFan(c, r)
    ensures c.hasAnimator ==> r.animatorRunning
  {
    s.(animatorRunning := if c.hasAnimator then true else s.animatorRunning)
  }

  /**
   * Freeze: any running FreezeRoutine is stopped and a new one starts, so
   * the fan is frozen, passable and still for exactly `duration` from now.
   */
  function FreezeFan(c: FanConfig, s: FanState, duration: nat): (r: FanState)
    ensures r.isFrozen && r.freezeLeft == Some(duration)
    ensures ValidFan(c, r)
    ensures c.hasCollider ==> r.isTrigger
  {
    s.(isFrozen := true,
       isTrigger := if c.hasCollider then true else s.isTrigger,
       animatorRunning := if c.hasAnimator then false else s.animatorRunning,
       tint := if c.hasSprite then FrozenYellow else s.tint,
       freezeLeft := Some(duration))
  }

  /** The end of FreezeRoutine: solid again, spinning, in its saved colour. */
  function ExpireFan(c: FanConfig, s: FanState): (r: FanState)
    ensures !r.isFrozen && r.freezeLeft == None
    ensures ValidFan(c, r)
    ensures c.hasCollider ==> !r.isTrigger
  {
    s.(isFrozen := false, freezeLeft := None,
       isTrigger := if c.hasCollider then false else s.isTrigger,
       animatorRunning := if c.hasAnimator then true else s.animatorRunning,
       tint := if c.hasSprite then OriginalColor else s.tint)
  }

  /** One tick: a FreezeRoutine whose wait is over ends; otherwise its wait shortens. */
  function TickFan(c: FanConfig, s: FanState): (r: FanState)
    ensures s.freezeLeft.None? ==> r == s
    ensures ValidFan(c, s) ==> ValidFan(c, r)
  {
    match s.freezeLeft
    case None => s
    case Some(k) => if k <= 1 then ExpireFan(c, s) else s.(freezeLeft := Some(k - 1))
  }

  /** A tick of a fan; it makes no spawner calls. */
  function FanTick(c: FanConfig): FanState -> Step<FanState>
  {
    s => Step(TickFan(c, s), [])
  }

  /** A frozen fan `k` ticks from the end of its freeze stays frozen for `k - 1` ticks. */
  lemma {:induction false} FrozenFanWaits(c: FanConfig, s: FanState, k: nat)
    requires ValidFan(c, s) && s.freezeLeft == Some(k) && k >= 1
    ensures Ticks(FanTick(c), s, k - 1).next == s.(freezeLeft := Some(1))
    decreases k
  {
    if k > 1 {
      var tick := FanTick(c);
      assert tick(s).next == s.(freezeLeft := Some(k - 1));
      FrozenFanWaits(c, tick(s).next, k - 1);
      TicksAdd(tick, s, 1, k - 2);
    }
  }

  /**
   * From any state, a fan frozen for `d >= 1` ticks is still frozen and
   * passable after `d - 1` ticks and solid again after `d`.
   */
  lemma FanThawsAfterDuration(c: FanConfig, s: FanState, d: nat)
    requires d >= 1
    ensures var f := FreezeFan(c, s, d);
      var w := Ticks(FanTick(c), f, d - 1).next;
      && w.isFrozen && (c.hasCollider ==> w.isTrigger)
      && var e := Ticks(FanTick(c), f, d).next;
      && !e.isFrozen && ValidFan(c, e) && (c.hasCollider ==> !e.isTrigger)
  {
    var tick := FanTick(c);
    var f := FreezeFan(c, s, d);
    FrozenFanWaits(c, f, d);
    TicksAdd(tick, f, d - 1, 1);
  }

  /**
   * A second hit restarts the freeze: hit for `d1`, wait `j < d1` ticks,
   * hit again for `d2 >= 1`; the fan is still frozen `d2 - 1` ticks after
   * the second hit and thawed `d2` ticks after it, whatever `d1` was.
   */
  lemma SecondHitRestartsFreeze(c: FanConfig, s: FanState, d1: nat, j: nat, d2: nat)
    requires j < d1 && d2 >= 1
    ensures var mid := Ticks(FanTick(c), FreezeFan(c, s, d1), j).next;
      && mid.isFrozen
      && var g := FreezeFan(c, mid, d2);
      && Ticks(FanTick(c), g, d2 - 1).next.isFrozen
      && !Ticks(FanTick(c), g, d2).next.isFrozen
  {
    var tick := FanTick(c);
    var f := FreezeFan(c, s, d1);
    if j > 0 {
      FrozenFanWaits(c, f, d1);
      TicksAdd(tick, f, j, d1 - 1 - j);
      FrozenStaysFrozen(c, f, j, d1 - 1 - j);
    }
    var mid := Ticks(tick, f, j).next;
    FanThawsAfterDuration(c, mid, d2);
  }

  /** Frozen after `m + n` ticks means frozen after `m`: a thawed fan stays thawed until hit. */
  lemma {:induction false} FrozenStaysFrozen(c: FanConfig, s: FanState, m: nat, n: nat)
    requires Ticks(FanTick(c), Ticks(FanTick(c), s, m).next, n).next.isFrozen
    requires ValidFan(c, s)
    ensures Ticks(FanTick(c), s, m).next.isFrozen
  {
    var w := Ticks(FanTick(c), s, m).next;
    TicksKeepValid(c, s, m);
    if !w.isFrozen {
      ThawedStaysThawed(c, w, n);
    }
  }

  /** Ticks keep a fan valid. */
  lemma {:induction false} TicksKeepValid(c: FanConfig, s: FanState, n: nat)
    requires ValidFan(c, s)
    ensures ValidFan(c, Ticks(FanTick(c), s, n).next)
    decreases n
  {
    if n > 0 {
      TicksKeepValid(c, TickFan(c, s), n - 1);
    }
  }

  /** Without a hit, a thawed fan stays as it is. */
  lemma {:induction false} ThawedStaysThawed(c: FanConfig, s: FanState, n: nat)
    requires ValidFan(c, s) && !s.isFrozen
    ensures Ticks(FanTick(c), s, n).next == s
    decreases n
  {
    if n > 0 {
      ThawedStaysThawed(c, TickFan(c, s), n - 1);
    }
  }

  // ---------------------------------------------------------------------------
  // The fan object
  // ---------------------------------------------------------------------------

  class RotatingFan {
    const config: FanConfig
    var isFrozen: bool
    var freezeCoroutine: Option<nat>
    var isTrigger: bool
    var animatorRunning: bool
    var tint: FanTint

    function State(): FanState
      reads this
    {
      FanState(isFrozen, freezeCoroutine, isTrigger, animatorRunning, tint)
    }

    constructor (config: FanConfig)
      ensures this.config == config && State() == PlacedFan()
    {
      this.config := config;
      isFrozen, freezeCoroutine, isTrigger, animatorRunning, tint := false, None, false, true, OriginalColor;
    }

    method Start()
      modifies this`animatorRunning
      ensures State() == StartFan(config, old(State()))
    {
      if config.hasAnimator {
        animatorRunning := true;
      }
    }

    /** Freeze, with the new FreezeRoutine up to its wait; a running one is replaced. */
    method Freeze(duration: nat)
      modifies this`isFrozen, this`isTrigger, this`animatorRunning, this`tint, this`freezeCoroutine
      ensures State() == FreezeFan(config, old(State()), duration)
    {
      if isFrozen {
        freezeCoroutine := None;
      }
      isFrozen := true;
      if config.hasCollider {
        isTrigger := true;
      }
      if config.hasAnimator {
        animatorRunning := false;
      }
      if config.hasSprite {
        tint := FrozenYellow;
      }
      freezeCoroutine := Some(duration);
    }

    /** FreezeRoutine after its wait. */
    method EndFreeze()
      modifies this`isFrozen, this`freezeCoroutine, this`isTrigger, this`animatorRunning, this`tint
      ensures State() == ExpireFan(config, old(State()))
    {
      isFrozen := false;
      freezeCoroutine := None;
      if config.hasCollider {
        isTrigger := false;
      }
      if config.hasAnimator {
        animatorRunning := true;
      }
      if config.hasSprite {
        tint := OriginalColor;
      }
    }

    method Tick()
      modifies this`isFrozen, this`freezeCoroutine, this`isTrigger, this`animatorRunning, this`tint
      ensures State() == TickFan(config, old(State()))
    {
      match freezeCoroutine
      case None =>
      case Some(k) =>
        if k <= 1 {
          EndFreeze();
        } else {
          freezeCoroutine := Some(k - 1);
        }
    }
  }
}
