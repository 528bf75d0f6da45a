/**
 * FallingSpike (Assets/Scripts/FallingSpike.cs): scans below itself for the
 * player, shakes for shakeDuration, then falls until it hits the ground or
 * its lifetime runs out. A freeze stops the shake and the lifetime timer,
 * pauses the bound spawner, and is undone by a scheduled Unfreeze.
 *
 * The physics probes are inputs: `playerBelow` is the downward BoxCastAll
 * finding a player-tagged collider other than the spike, `groundHit` the
 * short BoxCast against the ground layer.
 */
module Spikes {
  import opened Engine
  import opened Spawning

  /** Settings handed over by Init; durations in ticks. `hasCollider`: the spike has a Collider2D. */
  datatype SpikeConfig = SpikeConfig(
    canBeFrozen: bool,
    shakeDuration: nat,
    lifetime: nat,
    hasCollider: bool)

  /**
   * Abstract value of a spike. `shaking`: ShakeAndFallRoutine is running;
   * `jittered`: the spike is drawn at a random offset from its anchor;
   * `moving`: the fall velocity is applied (false: zero velocity);
   * `destroyInvokes` / `unfreezeInvokes`: pending `Invoke(DestroySpike, ...)`
   * and `Invoke(Unfreeze, ...)` calls; `alive`: the object is not destroyed;
   * `destroyedEvents`: how often OnDestroyed was raised.
   */
  datatype SpikeState = SpikeState(
    isFrozen: bool,
    isTriggered: bool,
    isFalling: bool,
    currentShakeTime: nat,
    shaking: bool,
    jittered: bool,
    moving: bool,
    destroyInvokes: seq<nat>,
    unfreezeInvokes: seq<nat>,
    alive: bool,
    destroyedEvents: nat)

  function InitialSpike(): SpikeState
  {
    SpikeState(false, false, false, 0, false, false, false, [], [], true, 0)
  }

  /** The states a spike can reach: the stages come in order and the timers match the stage. */
  predicate ValidSpike(c: SpikeConfig, s: SpikeState)
  {
    && (s.isFalling ==> s.isTriggered)
    && (s.shaking ==> s.isTriggered && !s.isFalling && !s.isFrozen)
    && (s.isTriggered && !s.isFalling && !s.isFrozen ==> s.shaking)
    && (s.jittered ==> s.shaking)
    && (s.moving ==> s.isFalling && !s.isFrozen)
    && (s.isFrozen || !s.isFalling ==> s.destroyInvokes == [])
    && |s.destroyInvokes| <= 1
    && (!s.isTriggered ==> s.currentShakeTime == 0)
    && s.currentShakeTime <= c.shakeDuration
    && (s.isFalling ==> s.currentShakeTime == c.shakeDuration)
  }

  lemma InitialSpikeValid(c: SpikeConfig)
    ensures ValidSpike(c, InitialSpike())
  {
  }

  /**
   * One run of ShakeAndFallRoutine up to its next yield: while the shake
   * time is short of shakeDuration it grows by one tick; once it is not,
   * the spike snaps back to its anchor, starts falling, schedules its
   * lifetime destruction and the routine ends. The shake time is never reset.
   */
  function ShakeStep(c: SpikeConfig, s: SpikeState): (r: SpikeState)
    ensures r.currentShakeTime >= s.currentShakeTime && r.isTriggered == s.isTriggered
    ensures r.isFrozen == s.isFrozen && r.alive == s.alive && r.unfreezeInvokes == s.unfreezeInvokes
    ensures s.currentShakeTime < c.shakeDuration ==>
      r == s.(currentShakeTime := s.currentShakeTime + 1, jittered := true)
    ensures s.currentShakeTime >= c.shakeDuration ==>
      r.isFalling && !r.shaking && !r.jittered && r.destroyInvokes == s.destroyInvokes + [c.lifetime]
  {
    if s.currentShakeTime < c.shakeDuration then
      s.(currentShakeTime := s.currentShakeTime + 1, jittered := true)
    else
      s.(jittered := false, isFalling := true, destroyInvokes := s.destroyInvokes + [c.lifetime],
         shaking := false)
  }

  /** StartCoroutine(ShakeAndFallRoutine()): the routine's first step runs at once. */
  function StartShake(c: SpikeConfig, s: SpikeState): (r: SpikeState)
    ensures r.isTriggered == s.isTriggered && r.isFrozen == s.isFrozen && r.alive == s.alive
    ensures s.currentShakeTime < c.shakeDuration ==> r.shaking && r.jittered && r.currentShakeTime == s.currentShakeTime + 1
    ensures s.currentShakeTime >= c.shakeDuration ==> r.isFalling && !r.shaking && r.destroyInvokes == s.destroyInvokes + [c.lifetime]
    ensures ValidSpike(c, s.(shaking := true)) ==> ValidSpike(c, r)
  {
    ShakeStep(c, s.(shaking := true))
  }

  /** StartTriggerSequence: ignored when frozen or already triggered. */
  function TriggerSpike(c: SpikeConfig, s: SpikeState): (r: SpikeState)
    ensures s.isFrozen || s.isTriggered ==> r == s
    ensures !s.isFrozen && !s.isTriggered ==> r == StartShake(c, s.(isTriggered := true))
    ensures ValidSpike(c, s) ==> ValidSpike(c, r)
  {
    if s.isFrozen || s.isTriggered then s else StartShake(c, s.(isTriggered := true))
  }

  /**
   * OnDestroy: cancels pending Unfreeze calls and resumes the bound spawner
   * if frozen. A destroyed frozen spike thus never leaves its spawner
   * paused; an unfrozen one leaves the spawner's flag as it was.
   */
  function OnDestroySpike(s: SpikeState, bound: bool): (r: Step<SpikeState>)
    ensures r.next.unfreezeInvokes == [] && r.next.(unfreezeInvokes := s.unfreezeInvokes) == s
    ensures forall flag :: After(flag, r.sent) == (flag || (s.isFrozen && bound))
    ensures forall c :: ValidSpike(c, s) ==> ValidSpike(c, r.next)
  {
    Step(s.(unfreezeInvokes := []), if s.isFrozen && bound then [Resume] else [])
  }

  /**
   * DestroySpike: resumes the bound spawner if frozen, raises OnDestroyed,
   * and destroys the object (its parent when it has one), after which the
   * engine runs OnDestroy once.
   */
  function SpikeDestroy(s: SpikeState, bound: bool): (r: Step<SpikeState>)
    ensures !r.next.alive && r.next.destroyedEvents == s.destroyedEvents + 1
    ensures r.sent == if s.isFrozen && bound then (if s.alive then [Resume, Resume] else [Resume]) else []
    ensures r.next == s.(alive := false, destroyedEvents := s.destroyedEvents + 1,
                         unfreezeInvokes := if s.alive then [] else s.unfreezeInvokes)
  {
    var first := if s.isFrozen && bound then [Resume] else [];
    var s1 := s.(destroyedEvents := s.destroyedEvents + 1);
    if !s.alive then Step(s1, first)
    else
      var teardown := OnDestroySpike(s1.(alive := false), bound);
      Step(teardown.next, first + teardown.sent)
  }

  /**
   * FixedUpdate: nothing while frozen; scanning while untriggered; while
   * falling, the fall velocity and the ground probe (only with a collider).
   */
  function FixedUpdateSpike(c: SpikeConfig, s: SpikeState, bound: bool, playerBelow: bool, groundHit: bool)
    : (r: Step<SpikeState>)
    ensures s.isFrozen ==> r == Step(s, [])
    ensures !s.isFrozen && !s.isTriggered ==> r == Step(if playerBelow then TriggerSpike(c, s) else s, [])
    ensures !s.isFrozen && s.isTriggered && !s.isFalling ==> r == Step(s, [])
    ensures !s.isFrozen && s.isTriggered && s.isFalling ==> r.next.moving && (r.next.alive <==> s.alive && !(c.hasCollider && groundHit))
    ensures !s.isFrozen ==> r.sent == []
    ensures ValidSpike(c, s) ==> ValidSpike(c, r.next)
  {
    if s.isFrozen then Step(s, [])
    else if !s.isTriggered then Step(if playerBelow then TriggerSpike(c, s) else s, [])
    else if s.isFalling then
      var s1 := s.(moving := true);
      if c.hasCollider && groundHit then SpikeDestroy(s1, bound) else Step(s1, [])
    else Step(s, [])
  }

  /**
   * OnTriggerEnter2D: a player-tagged collider with a PlayerController dies
   * and the spike is destroyed. There is no frozen guard: a frozen spike
   * still kills on contact.
   */
  function TouchSpike(s: SpikeState, bound: bool, playerWithController: bool): (r: Step<SpikeState>)
    ensures !playerWithController ==> r == Step(s, [])
    ensures playerWithController ==> !r.next.alive && r.next.isFrozen == s.isFrozen
  {
    if playerWithController then SpikeDestroy(s, bound) else Step(s, [])
  }

  /**
   * Freeze: no-op when the spike cannot be frozen or already is. Otherwise
   * the shake routine stops, velocity is zeroed, a shaking spike snaps back
   * to its anchor, the spawner is paused, the pending destruction is
   * cancelled and an Unfreeze is scheduled. The stage and shake progress
   * are kept.
   */
  function FreezeSpike(c: SpikeConfig, s: SpikeState, bound: bool, duration: nat): (r: Step<SpikeState>)
    ensures !c.canBeFrozen || s.isFrozen ==> r == Step(s, [])
    ensures c.canBeFrozen && !s.isFrozen ==>
      && r.next.isFrozen && !r.next.shaking && !r.next.moving
      && r.next.destroyInvokes == [] && r.next.unfreezeInvokes == s.unfreezeInvokes + [duration]
      && r.sent == (if bound then [Pause] else [])
    ensures r.next.isTriggered == s.isTriggered && r.next.isFalling == s.isFalling
    ensures r.next.currentShakeTime == s.currentShakeTime && r.next.alive == s.alive
    ensures ValidSpike(c, s) ==> ValidSpike(c, r.next)
  {
    if !c.canBeFrozen || s.isFrozen then Step(s, [])
    else
      Step(s.(shaking := false, isFrozen := true, moving := false,
              jittered := if s.isTriggered && !s.isFalling then false else s.jittered,
              destroyInvokes := [], unfreezeInvokes := s.unfreezeInvokes + [duration]),
           if bound then [Pause] else [])
  }

  /**
   * Unfreeze: no-op unless frozen. Otherwise an untriggered spike goes back
   * to scanning, a shaking one restarts its routine from the kept shake
   * time, and a falling one gets a fresh full-lifetime destruction; then the
   * spawner is resumed.
   */
  function UnfreezeSpike(c: SpikeConfig, s: SpikeState, bound: bool): (r: Step<SpikeState>)
    ensures !s.isFrozen ==> r == Step(s, [])
    ensures s.isFrozen ==> !r.next.isFrozen && r.sent == (if bound then [Resume] else [])
    ensures s.isFrozen && !s.isTriggered ==> r.next == s.(isFrozen := false)
    ensures s.isFrozen && s.isTriggered && s.isFalling ==> r.next == s.(isFrozen := false, destroyInvokes := s.destroyInvokes + [c.lifetime])
    ensures r.next.isTriggered == s.isTriggered && (s.isFalling ==> r.next.isFalling)
    ensures r.next.alive == s.alive && r.next.unfreezeInvokes == s.unfreezeInvokes
    ensures ValidSpike(c, s) ==> ValidSpike(c, r.next)
  {
    if !s.isFrozen then Step(s, [])
    else
      var s1 := s.(isFrozen := false);
      var s2 := if !s.isTriggered then s1
                else if !s.isFalling then StartShake(c, s1)
                else s1.(destroyInvokes := s1.destroyInvokes + [c.lifetime]);
      Step(s2, if bound then [Resume] else [])
  }

  /**
   * The start of a tick: every delayed call waits one tick less (those due
   * now leave their queue) and a running shake routine takes one step.
   */
  function SpikeTimers(c: SpikeConfig, s: SpikeState): (r: SpikeState)
    ensures r.isFrozen == s.isFrozen && r.isTriggered == s.isTriggered && r.alive == s.alive
    ensures r.unfreezeInvokes == Advance(s.unfreezeInvokes)
    ensures !s.shaking ==> r == s.(unfreezeInvokes := Advance(s.unfreezeInvokes), destroyInvokes := Advance(s.destroyInvokes))
    ensures ValidSpike(c, s) ==> ValidSpike(c, r)
  {
    var s0 := s.(unfreezeInvokes := Advance(s.unfreezeInvokes), destroyInvokes := Advance(s.destroyInvokes));
    if s0.shaking then ShakeStep(c, s0) else s0
  }

  /**
   * The delayed calls that came due, in order: Unfreeze (several at once
   * have the effect of one), then DestroySpike.
   */
  function SpikeDueCalls(c: SpikeConfig, s: SpikeState, bound: bool, dueUnfreeze: bool, dueDestroy: bool)
    : (r: Step<SpikeState>)
    ensures !dueUnfreeze && !dueDestroy ==> r == Step(s, [])
    ensures dueDestroy ==> !r.next.alive
    ensures !dueDestroy ==> r == (if dueUnfreeze then UnfreezeSpike(c, s, bound) else Step(s, []))
    ensures ValidSpike(c, s) ==> ValidSpike(c, r.next)
  {
    var u := DueUnfreeze(c, s, bound, dueUnfreeze);
    var d := DueDestroy(u.next, bound, dueDestroy);
    Step(d.next, u.sent + d.sent)
  }

  /** Unfreeze if it came due. */
  function DueUnfreeze(c: SpikeConfig, s: SpikeState, bound: bool, due: bool): (r: Step<SpikeState>)
    ensures !due || !s.isFrozen ==> r == Step(s, [])
    ensures due && s.isFrozen ==> !r.next.isFrozen && r.sent == (if bound then [Resume] else [])
    ensures r.next.alive == s.alive && r.next.unfreezeInvokes == s.unfreezeInvokes
    ensures ValidSpike(c, s) ==> ValidSpike(c, r.next)
  {
    if due then UnfreezeSpike(c, s, bound) else Step(s, [])
  }

  /** DestroySpike if it came due. */
  function DueDestroy(s: SpikeState, bound: bool, due: bool): (r: Step<SpikeState>)
    ensures !due ==> r == Step(s, [])
    ensures due ==> !r.next.alive && r.next.destroyedEvents == s.destroyedEvents + 1
    ensures due ==> forall flag :: After(flag, r.sent) == (flag || (s.isFrozen && bound))
  {
    if due then SpikeDestroy(s, bound) else Step(s, [])
  }

  /**
   * One tick of a live spike: the timers, the delayed calls that were due
   * when the tick began, and FixedUpdate if the spike is still alive. Calls
   * scheduled during the tick start waiting on the next one.
   */
  function TickSpike(c: SpikeConfig, s: SpikeState, bound: bool, playerBelow: bool, groundHit: bool)
    : (r: Step<SpikeState>)
    ensures !s.alive ==> r == Step(s, [])
    ensures ValidSpike(c, s) ==> ValidSpike(c, r.next)
  {
    if !s.alive then Step(s, [])
    else
      var d := SpikeDueCalls(c, SpikeTimers(c, s), bound, Fires(s.unfreezeInvokes), Fires(s.destroyInvokes));
      if !d.next.alive then d
      else
        var f := FixedUpdateSpike(c, d.next, bound, playerBelow, groundHit);
        Step(f.next, d.sent + f.sent)
  }

  /** A quiet tick of a falling spike: it keeps falling, or its lifetime ends. */
  lemma TickFalling(c: SpikeConfig, s: SpikeState, bound: bool, k: nat)
    requires ValidSpike(c, s) && s.alive && !s.isFrozen && s.isFalling
    requires s.unfreezeInvokes == [] && s.destroyInvokes == [k]
    ensures k > 1 ==> TickSpike(c, s, bound, false, false) == Step(s.(destroyInvokes := [k - 1], moving := true), [])
    ensures k <= 1 ==> !TickSpike(c, s, bound, false, false).next.alive
  {
    AdvancePair(k, 0);
    assert Advance([]) == [] && !Fires([]);
  }

  /** A quiet tick of a frozen spike: it waits, or its Unfreeze runs. */
  lemma TickFrozen(c: SpikeConfig, s: SpikeState, bound: bool, k: nat)
    requires ValidSpike(c, s) && s.alive && s.isFrozen && s.unfreezeInvokes == [k]
    ensures k > 1 ==> TickSpike(c, s, bound, false, false) == Step(s.(unfreezeInvokes := [k - 1]), [])
    ensures k <= 1 ==>
      var u := UnfreezeSpike(c, s.(unfreezeInvokes := []), bound);
      && TickSpike(c, s, bound, false, false).sent == u.sent
      && TickSpike(c, s, bound, false, false).next == (if u.next.isFalling then u.next.(moving := true) else u.next)
  {
    AdvancePair(k, 0);
    assert Advance([]) == [] && !Fires([]);
  }

  /** A quiet tick of a shaking spike is one step of its routine. */
  lemma TickShaking(c: SpikeConfig, s: SpikeState, bound: bool)
    requires ValidSpike(c, s) && s.alive && s.shaking && s.unfreezeInvokes == []
    ensures var t := ShakeStep(c, s);
      TickSpike(c, s, bound, false, false) == Step(if t.isFalling then t.(moving := true) else t, [])
  {
    assert Advance([]) == [] && !Fires([]);
  }

  /** A tick in which neither probe finds anything. */
  function QuietTick(c: SpikeConfig, bound: bool): SpikeState -> Step<SpikeState>
  {
    s => TickSpike(c, s, bound, false, false)
  }

  /** Quiet ticks keep a spike within its reachable states. */
  lemma {:induction false} QuietTicksValid(c: SpikeConfig, s: SpikeState, bound: bool, n: nat)
    requires ValidSpike(c, s)
    ensures ValidSpike(c, Ticks(QuietTick(c, bound), s, n).next)
    decreases n
  {
    if n > 0 {
      QuietTicksValid(c, QuietTick(c, bound)(s).next, bound, n - 1);
    }
  }

  /**
   * Freezing costs a shaking spike no progress: frozen mid-shake and then
   * unfrozen, it keeps shaking from the same shake time, exactly as one more
   * step of the uninterrupted routine would; the spawner is paused and then
   * resumed.
   */
  lemma ShakeResumesWhereItStopped(c: SpikeConfig, s: SpikeState, bound: bool, duration: nat)
    requires ValidSpike(c, s) && c.canBeFrozen && !s.isFrozen && s.shaking
    ensures var f := FreezeSpike(c, s, bound, duration);
      && f.next.isFrozen && !f.next.shaking && f.next.currentShakeTime == s.currentShakeTime
      && var u := UnfreezeSpike(c, f.next, bound);
      && u.next.currentShakeTime == ShakeStep(c, s).currentShakeTime
      && u.next.isFalling == ShakeStep(c, s).isFalling
      && u.next.shaking == ShakeStep(c, s).shaking
      && f.sent + u.sent == (if bound then [Pause, Resume] else [])
  {
  }

  /**
   * A shaking spike left alone shakes, one tick of shake time per tick,
   * until its shake time reaches shakeDuration ...
   */
  lemma {:induction false} ShakeRunsOut(c: SpikeConfig, s: SpikeState, bound: bool)
    requires ValidSpike(c, s) && s.alive && s.shaking && s.unfreezeInvokes == []
    ensures var w := Ticks(QuietTick(c, bound), s, c.shakeDuration - s.currentShakeTime);
      && w.next == s.(currentShakeTime := c.shakeDuration, jittered := s.jittered || s.currentShakeTime < c.shakeDuration)
      && w.sent == []
    decreases c.shakeDuration - s.currentShakeTime
  {
    var tick := QuietTick(c, bound);
    var n := c.shakeDuration - s.currentShakeTime;
    if n > 0 {
      TickShaking(c, s, bound);
      var t := tick(s);
      assert t.next == s.(currentShakeTime := s.currentShakeTime + 1, jittered := true) && t.sent == [];
      ShakeRunsOut(c, t.next, bound);
      TicksAdd(tick, s, 1, n - 1);
    }
  }

  /** ... and on the tick after that it falls with its full lifetime ahead of it. */
  lemma ShakeEndsInFall(c: SpikeConfig, s: SpikeState, bound: bool)
    requires ValidSpike(c, s) && s.alive && s.shaking && s.unfreezeInvokes == []
    ensures var w := Ticks(QuietTick(c, bound), s, c.shakeDuration - s.currentShakeTime + 1);
      && w.next.isFalling && w.next.alive && w.next.destroyInvokes == [c.lifetime]
      && w.next.unfreezeInvokes == [] && !w.next.isFrozen && w.sent == []
  {
    var tick := QuietTick(c, bound);
    var n := c.shakeDuration - s.currentShakeTime;
    ShakeRunsOut(c, s, bound);
    TicksAdd(tick, s, n, 1);
    var w := Ticks(tick, s, n).next;
    TickShaking(c, w, bound);
  }

  /**
   * A falling spike whose destruction is due in `k` ticks falls for `k - 1`
   * more ticks and is destroyed on the k-th.
   */
  lemma {:induction false} FallEndsInDestruction(c: SpikeConfig, s: SpikeState, bound: bool, k: nat)
    requires ValidSpike(c, s) && s.alive && !s.isFrozen && s.isFalling
    requires k >= 1 && s.destroyInvokes == [k] && s.unfreezeInvokes == []
    ensures Ticks(QuietTick(c, bound), s, k - 1).next.alive
    ensures !Ticks(QuietTick(c, bound), s, k).next.alive
    decreases k
  {
    var tick := QuietTick(c, bound);
    TickFalling(c, s, bound, k);
    var t := tick(s);
    TicksAdd(tick, s, 1, k - 1);
    if k > 1 {
      FallEndsInDestruction(c, t.next, bound, k - 1);
      TicksAdd(tick, s, 1, k - 2);
    }
  }

  /** A quiet tick of a frozen spike whose Unfreeze is `m > 1` ticks away only counts down. */
  lemma FrozenSpikeCountsDown(c: SpikeConfig, s: SpikeState, bound: bool, m: nat)
    requires ValidSpike(c, s) && s.alive && s.isFrozen && m > 1
    ensures QuietTick(c, bound)(s.(unfreezeInvokes := [m])) == Step(s.(unfreezeInvokes := [m - 1]), [])
  {
    TickFrozen(c, s.(unfreezeInvokes := [m]), bound, m);
  }

  /**
   * A frozen spike waiting on one Unfreeze `k` ticks away stays exactly as
   * it is, apart from the countdown, and makes no spawner call, for any
   * `j < k` ticks.
   */
  lemma FrozenSpikeWaits(c: SpikeConfig, s: SpikeState, bound: bool, k: nat, j: nat)
    requires ValidSpike(c, s) && s.alive && s.isFrozen && s.unfreezeInvokes == [k]
    requires j < k
    ensures Ticks(QuietTick(c, bound), s, j) == Step(s.(unfreezeInvokes := [k - j]), [])
  {
    var tick := QuietTick(c, bound);
    var f: nat -> SpikeState := (m: nat) => s.(unfreezeInvokes := [m]);
    forall m | 1 < m <= k
      ensures tick(f(m)) == Step(f(m - 1), [])
    {
      FrozenSpikeCountsDown(c, s, bound, m);
    }
    assert f(k) == s;
    CountDown(tick, f, k, j);
  }

  /**
   * ... and is unfrozen on the k-th tick, keeping its stage, with one
   * Resume to the spawner (when bound); a falling spike gets its full
   * lifetime back.
   */
  lemma FrozenSpikeThaws(c: SpikeConfig, s: SpikeState, bound: bool, k: nat)
    requires ValidSpike(c, s) && s.alive && s.isFrozen && k >= 1 && s.unfreezeInvokes == [k]
    ensures var w := Ticks(QuietTick(c, bound), s, k);
      && !w.next.isFrozen && w.next.alive && w.sent == (if bound then [Resume] else [])
      && w.next.isTriggered == s.isTriggered && (s.isFalling ==> w.next.isFalling)
      && w.next.unfreezeInvokes == [] && ValidSpike(c, w.next)
      && (s.isFalling ==> w.next.destroyInvokes == [c.lifetime])
  {
    var tick := QuietTick(c, bound);
    var f: nat -> SpikeState := (m: nat) => s.(unfreezeInvokes := [m]);
    forall m | 1 < m <= k
      ensures tick(f(m)) == Step(f(m - 1), [])
    {
      FrozenSpikeCountsDown(c, s, bound, m);
    }
    assert f(k) == s;
    CountDownThen(tick, f, k);
    TickFrozen(c, f(1), bound, 1);
  }

  /**
   * The lifetime restarts in full on unfreeze: a falling spike frozen for
   * `d` ticks is destroyed `lifetime` ticks after the freeze ends, whatever
   * was left of its lifetime when it was frozen (lifetime >= 1).
   */
  lemma LifetimeRestartsAfterFreeze(c: SpikeConfig, s: SpikeState, bound: bool, d: nat)
    requires ValidSpike(c, s) && s.alive && !s.isFrozen && s.isFalling && s.unfreezeInvokes == []
    requires c.canBeFrozen && d >= 1 && c.lifetime >= 1
    ensures var w := Ticks(QuietTick(c, bound), FreezeSpike(c, s, bound, d).next, d).next;
      && Ticks(QuietTick(c, bound), w, c.lifetime - 1).next.alive
      && !Ticks(QuietTick(c, bound), w, c.lifetime).next.alive
  {
    ThawedSpikeFallsForLifetime(c, FreezeSpike(c, s, bound, d).next, bound, d);
  }

  /** A frozen falling spike, once thawed, is destroyed `lifetime` ticks later. */
  lemma ThawedSpikeFallsForLifetime(c: SpikeConfig, f: SpikeState, bound: bool, d: nat)
    requires ValidSpike(c, f) && f.alive && f.isFrozen && f.isFalling && f.unfreezeInvokes == [d]
    requires d >= 1 && c.lifetime >= 1
    ensures var w := Ticks(QuietTick(c, bound), f, d).next;
      && Ticks(QuietTick(c, bound), w, c.lifetime - 1).next.alive
      && !Ticks(QuietTick(c, bound), w, c.lifetime).next.alive
  {
    var w := Ticks(QuietTick(c, bound), f, d).next;
    assert && ValidSpike(c, w) && w.alive && !w.isFrozen && w.isFalling
           && w.destroyInvokes == [c.lifetime] && w.unfreezeInvokes == [] by {
      FrozenSpikeThaws(c, f, bound, d);
    }
    FallEndsInDestruction(c, w, bound, c.lifetime);
  }

  // ---------------------------------------------------------------------------
  // The spike object
  // ---------------------------------------------------------------------------

  class FallingSpike {
    const config: SpikeConfig
    var isFrozen: bool
    var isTriggered: bool
    var isFalling: bool
    var currentShakeTime: nat
    var shaking: bool
    var jittered: bool
    var moving: bool
    var destroyInvokes: seq<nat>
    var unfreezeInvokes: seq<nat>
    var alive: bool
    var destroyedEvents: nat
    var mySpawner: PlatformSpawner?

    function State(): SpikeState
      reads this
    {
      SpikeState(isFrozen, isTriggered, isFalling, currentShakeTime, shaking, jittered, moving,
                 destroyInvokes, unfreezeInvokes, alive, destroyedEvents)
    }

    /** A placed spike with the settings Init copies in; no spawner is bound yet. */
    constructor (config: SpikeConfig)
      ensures this.config == config && mySpawner == null
      ensures State() == InitialSpike()
    {
      this.config := config;
      isFrozen, isTriggered, isFalling, currentShakeTime := false, false, false, 0;
      shaking, jittered, moving := false, false, false;
      destroyInvokes, unfreezeInvokes, alive, destroyedEvents := [], [], true, 0;
      mySpawner := null;
    }

    /** Init: binds the spawner (the settings are the constructor's). */
    method Init(spawner: PlatformSpawner?)
      modifies this`mySpawner
      ensures mySpawner == spawner
    {
      mySpawner := spawner;
    }

    /** Start: kinematic body at rest. */
    method Start()
      modifies this`moving
      ensures State() == old(State()).(moving := false)
    {
      moving := false;
    }

    method StartTriggerSequence()
      modifies this`isTriggered, this`currentShakeTime, this`jittered, this`isFalling, this`destroyInvokes, this`shaking
      ensures State() == TriggerSpike(config, old(State()))
    {
      if isFrozen || isTriggered {
        return;
      }
      isTriggered := true;
      shaking := true;
      ShakeRoutineStep();
    }

    /** One run of ShakeAndFallRoutine up to its next yield. */
    method ShakeRoutineStep()
      modifies this`currentShakeTime, this`jittered, this`isFalling, this`destroyInvokes, this`shaking
      ensures State() == ShakeStep(config, old(State()))
    {
      if currentShakeTime < config.shakeDuration {
        currentShakeTime := currentShakeTime + 1;
        jittered := true;
      } else {
        jittered := false;
        isFalling := true;
        destroyInvokes := destroyInvokes + [config.lifetime];
        shaking := false;
      }
    }

    method OnDestroy()
      modifies this`unfreezeInvokes, SpawnerSet(mySpawner)`canSpawn
      ensures var st := OnDestroySpike(old(State()), mySpawner != null);
        State() == st.next && (mySpawner != null ==> mySpawner.canSpawn == After(old(mySpawner.canSpawn), st.sent))
    {
      unfreezeInvokes := [];
      if isFrozen && mySpawner != null {
        mySpawner.ResumeSpawning();
      }
    }

    method DestroySpike()
      modifies this`destroyedEvents, this`alive, this`unfreezeInvokes, SpawnerSet(mySpawner)`canSpawn
      ensures var st := SpikeDestroy(old(State()), mySpawner != null);
        State() == st.next && (mySpawner != null ==> mySpawner.canSpawn == After(old(mySpawner.canSpawn), st.sent))
    {
      if isFrozen && mySpawner != null {
        mySpawner.ResumeSpawning();
      }
      destroyedEvents := destroyedEvents + 1;
      if alive {
        alive := false;
        OnDestroy();
      }
    }

    method FixedUpdate(playerBelow: bool, groundHit: bool)
      modifies this`isTriggered, this`currentShakeTime, this`jittered, this`isFalling, this`destroyInvokes, this`shaking, this`moving,
        this`destroyedEvents, this`alive, this`unfreezeInvokes, SpawnerSet(mySpawner)`canSpawn
      ensures var st := FixedUpdateSpike(config, old(State()), mySpawner != null, playerBelow, groundHit);
        State() == st.next && (mySpawner != null ==> mySpawner.canSpawn == After(old(mySpawner.canSpawn), st.sent))
    {
      if isFrozen {
        return;
      }
      if !isTriggered {
        if playerBelow {
          StartTriggerSequence();
        }
      } else if isFalling {
        moving := true;
        if config.hasCollider && groundHit {
          DestroySpike();
        }
      }
    }

    /** OnTriggerEnter2D; `killed` says whether the player's Die was called. */
    method OnTriggerEnter2D(playerWithController: bool) returns (killed: bool)
      modifies this`destroyedEvents, this`alive, this`unfreezeInvokes, SpawnerSet(mySpawner)`canSpawn
      ensures killed == playerWithController
      ensures var st := TouchSpike(old(State()), mySpawner != null, playerWithController);
        State() == st.next && (mySpawner != null ==> mySpawner.canSpawn == After(old(mySpawner.canSpawn), st.sent))
    {
      killed := playerWithController;
      if playerWithController {
        DestroySpike();
      }
    }

    method Freeze(duration: nat)
      modifies this`shaking, this`isFrozen, this`moving, this`jittered, this`destroyInvokes,
        this`unfreezeInvokes, SpawnerSet(mySpawner)`canSpawn
      ensures var st := FreezeSpike(config, old(State()), mySpawner != null, duration);
        State() == st.next && (mySpawner != null ==> mySpawner.canSpawn == After(old(mySpawner.canSpawn), st.sent))
    {
      if !config.canBeFrozen || isFrozen {
        return;
      }
      shaking := false;
      isFrozen := true;
      moving := false;
      if isTriggered && !isFalling {
        jittered := false;
      }
      if mySpawner != null {
        mySpawner.PauseSpawning();
      }
      destroyInvokes := [];
      unfreezeInvokes := unfreezeInvokes + [duration];
    }

    method Unfreeze()
      modifies this`isFrozen, this`currentShakeTime, this`jittered, this`isFalling, this`destroyInvokes, this`shaking, SpawnerSet(mySpawner)`canSpawn
      ensures var st := UnfreezeSpike(config, old(State()), mySpawner != null);
        State() == st.next && (mySpawner != null ==> mySpawner.canSpawn == After(old(mySpawner.canSpawn), st.sent))
    {
      if !isFrozen {
        return;
      }
      isFrozen := false;
      if !isTriggered {
      } else if !isFalling {
        shaking := true;
        ShakeRoutineStep();
      } else {
        destroyInvokes := destroyInvokes + [config.lifetime];
      }
      if mySpawner != null {
        mySpawner.ResumeSpawning();
      }
    }

    /** The start of a tick: delayed calls move one tick closer; a running shake routine steps. */
    method AdvanceTimers()
      modifies this`unfreezeInvokes, this`currentShakeTime, this`jittered, this`isFalling, this`destroyInvokes, this`shaking
      ensures State() == SpikeTimers(config, old(State()))
    {
      unfreezeInvokes := Advance(unfreezeInvokes);
      destroyInvokes := Advance(destroyInvokes);
      if shaking {
        ShakeRoutineStep();
      }
    }

    /** The due Unfreeze, if one came due. */
    method RunDueUnfreeze(due: bool)
      modifies this`isFrozen, this`currentShakeTime, this`jittered, this`isFalling, this`destroyInvokes, this`shaking, SpawnerSet(mySpawner)`canSpawn
      ensures var st := DueUnfreeze(config, old(State()), mySpawner != null, due);
        State() == st.next && (mySpawner != null ==> mySpawner.canSpawn == After(old(mySpawner.canSpawn), st.sent))
    {
      if due {
        Unfreeze();
      }
    }

    /** The due DestroySpike, if one came due. */
    method RunDueDestroy(due: bool)
      modifies this`destroyedEvents, this`alive, this`unfreezeInvokes, SpawnerSet(mySpawner)`canSpawn
      ensures var st := DueDestroy(old(State()), mySpawner != null, due);
        State() == st.next && (mySpawner != null ==> mySpawner.canSpawn == After(old(mySpawner.canSpawn), st.sent))
    {
      if due {
        DestroySpike();
      }
    }

    /** Runs the delayed calls that were due when the tick began. */
    method RunDueCalls(dueUnfreeze: bool, dueDestroy: bool)
      modifies this`isFrozen, this`currentShakeTime, this`jittered, this`isFalling, this`destroyInvokes, this`shaking,
        this`destroyedEvents, this`alive, this`unfreezeInvokes, SpawnerSet(mySpawner)`canSpawn
      ensures var st := SpikeDueCalls(config, old(State()), mySpawner != null, dueUnfreeze, dueDestroy);
        State() == st.next && (mySpawner != null ==> mySpawner.canSpawn == After(old(mySpawner.canSpawn), st.sent))
    {
      ghost var u := DueUnfreeze(config, State(), mySpawner != null, dueUnfreeze);
      ghost var flag := mySpawner != null && mySpawner.canSpawn;
      RunDueUnfreeze(dueUnfreeze);
      ghost var d := DueDestroy(u.next, mySpawner != null, dueDestroy);
      RunDueDestroy(dueDestroy);
      AfterConcat(flag, u.sent, d.sent);
    }

    method Tick(playerBelow: bool, groundHit: bool)
      modifies this`isFrozen, this`isTriggered, this`currentShakeTime, this`jittered, this`isFalling,
        this`destroyInvokes, this`shaking, this`moving, this`destroyedEvents, this`alive,
        this`unfreezeInvokes, SpawnerSet(mySpawner)`canSpawn
      ensures var st := TickSpike(config, old(State()), mySpawner != null, playerBelow, groundHit);
        State() == st.next && (mySpawner != null ==> mySpawner.canSpawn == After(old(mySpawner.canSpawn), st.sent))
    {
      if !alive {
        return;
      }
      ghost var bound := mySpawner != null;
      ghost var flag0 := if bound then mySpawner.canSpawn else false;
      var dueUnfreeze := Fires(unfreezeInvokes);
      var dueDestroy := Fires(destroyInvokes);
      AdvanceTimers();
      ghost var s1 := State();
      RunDueCalls(dueUnfreeze, dueDestroy);
      ghost var d := SpikeDueCalls(config, s1, bound, dueUnfreeze, dueDestroy);
      if alive {
        FixedUpdate(playerBelow, groundHit);
        AfterConcat(flag0, d.sent, FixedUpdateSpike(config, d.next, bound, playerBelow, groundHit).sent);
      }
    }
  }
}
