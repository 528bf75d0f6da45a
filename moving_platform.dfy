/**
 * MovingPlatform (Assets/Scripts/MovingPlatform.cs): a kinematic platform
 * that moves along moveDirection. On an obstacle it turns around (round
 * trip) or is destroyed; in round-trip mode it can also turn on a timer.
 * A lifetime destroys it; a freeze stops it, keeps its direction and turn
 * timer, and gives it a fresh lifetime when it ends.
 *
 * The obstacle probe is an input `wallHit` (the BoxCast along the move
 * direction found an obstacle-layer collider).
 */
module Moving {
  import opened Engine
  import opened Spawning

  /** A 2-D vector with integer coordinates. */
  datatype Vec = Vec(x: int, y: int)

  function Neg(v: Vec): (r: Vec)
    ensures r.x == -v.x && r.y == -v.y
  {
    Vec(-v.x, -v.y)
  }

  /** Serialized settings; `lifetime` and `autoTurnTime` in ticks (0: off); `hasCollider`: a Collider2D is present. */
  datatype MoveConfig = MoveConfig(
    canBeFrozen: bool,
    lifetime: nat,
    isRoundTrip: bool,
    autoTurnTime: nat,
    hasCollider: bool)

  /** Turning on the timer is in effect. */
  predicate AutoTurns(c: MoveConfig)
  {
    c.isRoundTrip && c.autoTurnTime > 0
  }

  /**
   * Abstract value of a platform. `moving`: the body's velocity is
   * moveDirection * moveSpeed (false: zero); `lifetimeLeft`: the running
   * LifetimeRoutine and the ticks it still waits (None: not running);
   * `unfreezeInvokes`: pending `Invoke(Unfreeze, ...)` calls;
   * `destroyedEvents`: how often OnDestroyed was raised.
   */
  datatype MoveState = MoveState(
    isFrozen: bool,
    direction: Vec,
    moving: bool,
    turnTimer: nat,
    lifetimeLeft: Option<nat>,
    unfreezeInvokes: seq<nat>,
    alive: bool,
    destroyedEvents: nat)

  /** A placed platform before Start: at rest. */
  function PlacedMoving(direction: Vec): MoveState
  {
    MoveState(false, direction, false, 0, None, [], true, 0)
  }

  /** The states a started platform can reach. */
  predicate ValidMoving(c: MoveConfig, s: MoveState)
  {
    && (s.isFrozen ==> s.lifetimeLeft == None)
    && (s.moving <==> !s.isFrozen)
    && (s.lifetimeLeft.Some? ==> s.lifetimeLeft.value >= 1 && c.lifetime > 0)
    && (s.alive && !s.isFrozen && c.lifetime > 0 ==> s.lifetimeLeft.Some?)
    && (AutoTurns(c) ==> s.turnTimer < c.autoTurnTime)
    && (!AutoTurns(c) ==> s.turnTimer == 0)
  }

  /**
   * StartMoving: the platform moves unless frozen. Only the velocity can
   * change, and on a platform in a reachable state it already follows the
   * direction, so there nothing changes.
   */
  function MotionFollowsDirection(c: MoveConfig, s: MoveState): (r: MoveState)
    ensures r.(moving := s.moving) == s
    ensures r.moving <==> s.moving || !s.isFrozen
    ensures ValidMoving(c, s) ==> r == s
  {
    if s.isFrozen then s else s.(moving := true)
  }

  /** Start: set moving, and arm the lifetime when lifetime > 0. */
  function StartMovingPlatform(c: MoveConfig, s: MoveState): (r: MoveState)
    ensures r.lifetimeLeft == (if c.lifetime > 0 then Some(c.lifetime) else None)
    ensures s == PlacedMoving(s.direction) ==> ValidMoving(c, r)
  {
    MotionFollowsDirection(c, s).(lifetimeLeft := if c.lifetime > 0 then Some(c.lifetime) else None)
  }

  /**
   * TurnAround: the direction is negated, the velocity is set along it
   * unless frozen, and the turn timer restarts.
   */
  function Turned(c: MoveConfig, s: MoveState): (r: MoveState)
    ensures r.direction == Neg(s.direction) && r.turnTimer == 0
    ensures r == s.(direction := r.direction, moving := r.moving, turnTimer := 0)
    ensures r.moving == (s.moving || !s.isFrozen)
  {
    var s1 := s.(direction := Neg(s.direction));
    (if s1.isFrozen then s1 else s1.(moving := true)).(turnTimer := 0)
  }

  /** Turning around twice restores the direction and the velocity, and leaves the turn timer at 0. */
  lemma TurnAroundTwice(c: MoveConfig, s: MoveState)
    requires ValidMoving(c, s)
    ensures Turned(c, Turned(c, s)) == s.(turnTimer := 0)
  {
    assert Neg(Neg(s.direction)) == s.direction;
  }

  /**
   * OnDestroy: cancels pending Unfreeze calls and resumes the bound spawner
   * if frozen (MovingPlatform.cs lines 198-202 repeat FallingSpike's
   * OnDestroy for this platform's own state). A destroyed frozen platform
   * never leaves its spawner paused.
   */
  function OnDestroyMoving(s: MoveState, bound: bool): (r: Step<MoveState>)
    ensures r.next.unfreezeInvokes == [] && r.next.(unfreezeInvokes := s.unfreezeInvokes) == s
    ensures forall flag :: After(flag, r.sent) == (flag || (s.isFrozen && bound))
    ensures forall c :: ValidMoving(c, s) ==> ValidMoving(c, r.next)
  {
    Step(s.(unfreezeInvokes := []), if s.isFrozen && bound then [Resume] else [])
  }

  /**
   * DestroyPlatform: resumes the bound spawner if frozen, raises
   * OnDestroyed and destroys the object, after which the engine runs
   * OnDestroy once. Destruction ends the lifetime routine with the object.
   */
  function DestroyMoving(s: MoveState, bound: bool): (r: Step<MoveState>)
    ensures r.next == s.(alive := false, destroyedEvents := s.destroyedEvents + 1, lifetimeLeft := None,
                         unfreezeInvokes := if s.alive then [] else s.unfreezeInvokes)
    ensures r.sent == if s.isFrozen && bound then (if s.alive then [Resume, Resume] else [Resume]) else []
  {
    var first := if s.isFrozen && bound then [Resume] else [];
    var s1 := s.(destroyedEvents := s.destroyedEvents + 1, lifetimeLeft := None);
    if !s.alive then Step(s1, first)
    else
      var teardown := OnDestroyMoving(s1.(alive := false), bound);
      Step(teardown.next, first + teardown.sent)
  }

  /** CheckWallCollision: with a collider, an obstacle ahead turns a round-trip platform and destroys any other. */
  function WallCheck(c: MoveConfig, s: MoveState, bound: bool, wallHit: bool): (r: Step<MoveState>)
    ensures !(c.hasCollider && wallHit) ==> r == Step(s, [])
    ensures c.hasCollider && wallHit && c.isRoundTrip ==>
      && r.next.direction == Neg(s.direction) && r.next.turnTimer == 0
      && r.next.alive == s.alive && r.sent == []
    ensures c.hasCollider && wallHit && !c.isRoundTrip ==>
      && !r.next.alive && r.next.destroyedEvents == s.destroyedEvents + 1
      && r.next.direction == s.direction
      && forall flag :: After(flag, r.sent) == (flag || (s.isFrozen && bound))
    ensures ValidMoving(c, s) ==> ValidMoving(c, r.next)
  {
    if !(c.hasCollider && wallHit) then Step(s, [])
    else if c.isRoundTrip then Step(Turned(c, s), [])
    else DestroyMoving(s, bound)
  }

  /** The timed turn: the turn timer counts ticks and, on reaching autoTurnTime, turns the platform. */
  function AutoTurnStep(c: MoveConfig, s: MoveState): (r: MoveState)
    ensures !AutoTurns(c) ==> r == s
    ensures AutoTurns(c) && s.turnTimer + 1 < c.autoTurnTime ==> r == s.(turnTimer := s.turnTimer + 1)
    ensures AutoTurns(c) && s.turnTimer + 1 >= c.autoTurnTime ==> r == Turned(c, s)
  {
    if !AutoTurns(c) then s
    else if s.turnTimer + 1 >= c.autoTurnTime then Turned(c, s.(turnTimer := s.turnTimer + 1))
    else s.(turnTimer := s.turnTimer + 1)
  }

  /**
   * FixedUpdate: nothing while frozen; otherwise the velocity follows the
   * direction, the wall check runs, then the timed turn.
   */
  function FixedUpdateMoving(c: MoveConfig, s: MoveState, bound: bool, wallHit: bool): (r: Step<MoveState>)
    ensures s.isFrozen ==> r == Step(s, [])
    ensures !s.isFrozen && !(c.hasCollider && wallHit) ==>
      r == Step(AutoTurnStep(c, s.(moving := true)), [])
    ensures !s.isFrozen && c.hasCollider && wallHit && !c.isRoundTrip ==>
      !r.next.alive && r.next.direction == s.direction
    ensures !s.isFrozen && c.hasCollider && wallHit && c.isRoundTrip && !(AutoTurns(c) && c.autoTurnTime == 1) ==>
      r.next.direction == Neg(s.direction) && r.sent == []
    ensures ValidMoving(c, s) ==> ValidMoving(c, r.next)
  {
    if s.isFrozen then Step(s, [])
    else
      var w := WallCheck(c, s.(moving := true), bound, wallHit);
      Step(AutoTurnStep(c, w.next), w.sent)
  }

  /**
   * Freeze: no-op when the platform cannot be frozen or already is.
   * Otherwise the lifetime routine stops, the platform halts, the spawner
   * is paused and an Unfreeze is scheduled; direction and turn timer are kept.
   */
  function FreezeMoving(c: MoveConfig, s: MoveState, bound: bool, duration: nat): (r: Step<MoveState>)
    ensures !c.canBeFrozen || s.isFrozen ==> r == Step(s, [])
    ensures c.canBeFrozen && !s.isFrozen ==>
      && r.next == s.(isFrozen := true, lifetimeLeft := None, moving := false,
                      unfreezeInvokes := s.unfreezeInvokes + [duration])
      && r.sent == (if bound then [Pause] else [])
    ensures r.next.direction == s.direction && r.next.turnTimer == s.turnTimer
    ensures ValidMoving(c, s) ==> ValidMoving(c, r.next)
  {
    if !c.canBeFrozen || s.isFrozen then Step(s, [])
    else
      Step(s.(lifetimeLeft := None, isFrozen := true, moving := false,
              unfreezeInvokes := s.unfreezeInvokes + [duration]),
           if bound then [Pause] else [])
  }

  /**
   * Unfreeze: no-op unless frozen. Otherwise the platform moves again, the
   * spawner is resumed and, when lifetime > 0, the lifetime starts over in full.
   */
  function UnfreezeMoving(c: MoveConfig, s: MoveState, bound: bool): (r: Step<MoveState>)
    ensures !s.isFrozen ==> r == Step(s, [])
    ensures s.isFrozen ==>
      && r.next == s.(isFrozen := false, moving := true,
                      lifetimeLeft := if c.lifetime > 0 then Some(c.lifetime) else s.lifetimeLeft)
      && r.sent == (if bound then [Resume] else [])
    ensures ValidMoving(c, s) ==> ValidMoving(c, r.next)
  {
    if !s.isFrozen then Step(s, [])
    else
      var s1 := MotionFollowsDirection(c, s.(isFrozen := false));
      Step(if c.lifetime > 0 then s1.(lifetimeLeft := Some(c.lifetime)) else s1,
           if bound then [Resume] else [])
  }

  /** The start of a tick: delayed calls and the lifetime routine move one tick closer. */
  function MovingTimers(s: MoveState): (r: MoveState)
    ensures r.unfreezeInvokes == Advance(s.unfreezeInvokes)
    ensures s.lifetimeLeft.Some? && s.lifetimeLeft.value > 1 ==> r.lifetimeLeft == Some(s.lifetimeLeft.value - 1)
    ensures !(s.lifetimeLeft.Some? && s.lifetimeLeft.value > 1) ==> r.lifetimeLeft == s.lifetimeLeft
    ensures r == s.(unfreezeInvokes := r.unfreezeInvokes, lifetimeLeft := r.lifetimeLeft)
  {
    s.(unfreezeInvokes := Advance(s.unfreezeInvokes),
       lifetimeLeft := match s.lifetimeLeft
         case Some(k) => if k <= 1 then s.lifetimeLeft else Some(k - 1)
         case None => None)
  }

  /** The lifetime routine's wait is over. */
  predicate LifetimeDue(s: MoveState)
  {
    s.lifetimeLeft.Some? && s.lifetimeLeft.value <= 1
  }

  /** The Unfreeze calls that came due, then FixedUpdate. */
  function DueThenFixedUpdate(c: MoveConfig, s: MoveState, bound: bool, dueUnfreeze: bool, wallHit: bool)
    : (r: Step<MoveState>)
    ensures !dueUnfreeze ==> r == FixedUpdateMoving(c, s, bound, wallHit)
    ensures ValidMoving(c, s) ==> ValidMoving(c, r.next)
  {
    var u := if dueUnfreeze then UnfreezeMoving(c, s, bound) else Step(s, []);
    var f := FixedUpdateMoving(c, u.next, bound, wallHit);
    Step(f.next, u.sent + f.sent)
  }

  /**
   * One tick of a live platform: a lifetime that ran out destroys it;
   * otherwise the timers advance, the Unfreeze calls due at the start of
   * the tick run, then FixedUpdate.
   */
  function TickMoving(c: MoveConfig, s: MoveState, bound: bool, wallHit: bool): (r: Step<MoveState>)
    ensures !s.alive ==> r == Step(s, [])
    ensures ValidMoving(c, s) ==> ValidMoving(c, r.next)
  {
    if !s.alive then Step(s, [])
    else if LifetimeDue(s) then DestroyMoving(s, bound)
    else DueThenFixedUpdate(c, MovingTimers(s), bound, Fires(s.unfreezeInvokes), wallHit)
  }

  /** A tick in which the obstacle probe finds nothing. */
  function QuietTickMoving(c: MoveConfig, bound: bool): MoveState -> Step<MoveState>
  {
    s => TickMoving(c, s, bound, false)
  }

  /** A quiet tick of a moving platform whose lifetime is not yet due: the timers and the timed turn. */
  lemma QuietTickMoves(c: MoveConfig, s: MoveState, bound: bool)
    requires ValidMoving(c, s) && s.alive && !s.isFrozen && s.unfreezeInvokes == [] && !LifetimeDue(s)
    ensures QuietTickMoving(c, bound)(s) == Step(AutoTurnStep(c, MovingTimers(s)), [])
  {
    assert Advance([]) == [] && !Fires([]);
  }

  /** Time left before the lifetime destroys the platform (unbounded when no lifetime runs). */
  predicate OutlivesTicks(s: MoveState, n: nat)
  {
    s.lifetimeLeft.None? || s.lifetimeLeft.value > n
  }

  /**
   * With timed turns and no obstacle, the platform keeps its direction
   * until the turn timer reaches autoTurnTime, and is turned on that tick.
   */
  lemma {:induction false} AutoTurnPeriod(c: MoveConfig, s: MoveState, bound: bool)
    requires ValidMoving(c, s) && s.alive && !s.isFrozen && s.unfreezeInvokes == [] && AutoTurns(c)
    requires OutlivesTicks(s, c.autoTurnTime - s.turnTimer)
    ensures var w := Ticks(QuietTickMoving(c, bound), s, c.autoTurnTime - s.turnTimer - 1);
      && w.next.direction == s.direction && w.next.turnTimer == c.autoTurnTime - 1 && w.next.alive
      && !w.next.isFrozen && w.next.unfreezeInvokes == [] && ValidMoving(c, w.next) && w.sent == []
      && OutlivesTicks(w.next, 1)
    ensures var w := Ticks(QuietTickMoving(c, bound), s, c.autoTurnTime - s.turnTimer);
      && w.next.direction == Neg(s.direction) && w.next.turnTimer == 0 && w.next.alive && w.sent == []
    decreases c.autoTurnTime - s.turnTimer
  {
    var tick := QuietTickMoving(c, bound);
    var n := c.autoTurnTime - s.turnTimer;
    QuietTickMoves(c, s, bound);
    TicksAdd(tick, s, 1, n - 1);
    if n > 1 {
      var t := tick(s).next;
      assert t.direction == s.direction && t.turnTimer == s.turnTimer + 1;
      AutoTurnPeriod(c, t, bound);
      TicksAdd(tick, s, 1, n - 2);
    }
  }

  /**
   * A frozen platform waiting on one Unfreeze `k` ticks away changes
   * nothing but the countdown, and makes no spawner call, for any `j < k`
   * ticks.
   */
  lemma FrozenMovingWaits(c: MoveConfig, s: MoveState, bound: bool, k: nat, j: nat)
    requires ValidMoving(c, s) && s.alive && s.isFrozen && s.unfreezeInvokes == [k]
    requires j < k
    ensures Ticks(QuietTickMoving(c, bound), s, j) == Step(s.(unfreezeInvokes := [k - j]), [])
  {
    var tick := QuietTickMoving(c, bound);
    var f: nat -> MoveState := (m: nat) => s.(unfreezeInvokes := [m]);
    forall m | 1 < m <= k
      ensures tick(f(m)) == Step(f(m - 1), [])
    {
      FrozenTickMoving(c, s, bound, m);
    }
    assert f(k) == s;
    CountDown(tick, f, k, j);
  }

  /** A quiet tick of a frozen platform whose Unfreeze is not yet due only counts down. */
  lemma FrozenTickMoving(c: MoveConfig, s: MoveState, bound: bool, k: nat)
    requires ValidMoving(c, s) && s.alive && s.isFrozen && k > 1
    ensures QuietTickMoving(c, bound)(s.(unfreezeInvokes := [k])) == Step(s.(unfreezeInvokes := [k - 1]), [])
  {
    var t := s.(unfreezeInvokes := [k]);
    var u := s.(unfreezeInvokes := [k - 1]);
    assert TickMoving(c, t, bound, false) == DueThenFixedUpdate(c, u, bound, false, false) by {
      AdvancePair(k, 0);
      assert !LifetimeDue(t);
      assert MovingTimers(t) == u;
    }
    assert DueThenFixedUpdate(c, u, bound, false, false) == Step(u, []);
  }

  /**
   * A freeze of `d` ticks costs the platform neither its direction nor its
   * turn timer progress, and it comes out of the freeze with a full
   * lifetime; the spawner hears Pause, then Resume.
   */
  lemma FreezeKeepsCourse(c: MoveConfig, s: MoveState, bound: bool, d: nat)
    requires ValidMoving(c, s) && s.alive && !s.isFrozen && s.unfreezeInvokes == [] && c.canBeFrozen
    requires d >= 1 && (!AutoTurns(c) || s.turnTimer + 1 < c.autoTurnTime)
    ensures var f := FreezeMoving(c, s, bound, d);
      var w := Ticks(QuietTickMoving(c, bound), f.next, d);
      && w.next.direction == s.direction && !w.next.isFrozen && w.next.alive
      && w.next.turnTimer == (if AutoTurns(c) then s.turnTimer + 1 else 0)
      && w.next.lifetimeLeft == (if c.lifetime > 0 then Some(c.lifetime) else None)
      && f.sent + w.sent == (if bound then [Pause, Resume] else [])
  {
    FrozenMovingThaws(c, FreezeMoving(c, s, bound, d).next, bound, d);
  }

  /** A frozen platform whose one Unfreeze is `d` ticks away moves again on the d-th tick, on its old course. */
  lemma FrozenMovingThaws(c: MoveConfig, f: MoveState, bound: bool, d: nat)
    requires ValidMoving(c, f) && f.alive && f.isFrozen && d >= 1 && f.unfreezeInvokes == [d]
    requires !AutoTurns(c) || f.turnTimer + 1 < c.autoTurnTime
    ensures var w := Ticks(QuietTickMoving(c, bound), f, d);
      && w.next.direction == f.direction && !w.next.isFrozen && w.next.alive
      && w.next.turnTimer == (if AutoTurns(c) then f.turnTimer + 1 else 0)
      && w.next.lifetimeLeft == (if c.lifetime > 0 then Some(c.lifetime) else None)
      && w.sent == (if bound then [Resume] else [])
      && w.next.unfreezeInvokes == [] && ValidMoving(c, w.next)
  {
    var tick := QuietTickMoving(c, bound);
    var g := f.(unfreezeInvokes := [1]);
    var h: nat -> MoveState := (m: nat) => f.(unfreezeInvokes := [m]);
    forall m | 1 < m <= d
      ensures tick(h(m)) == Step(h(m - 1), [])
    {
      FrozenTickMoving(c, f, bound, m);
    }
    assert h(d) == f && h(1) == g;
    CountDownThen(tick, h, d);
    ThawTickMoving(c, g, bound);
  }

  /** The tick on which the Unfreeze runs: the platform moves again with a full lifetime and takes its FixedUpdate. */
  lemma ThawTickMoving(c: MoveConfig, g: MoveState, bound: bool)
    requires ValidMoving(c, g) && g.alive && g.isFrozen && g.unfreezeInvokes == [1]
    requires !AutoTurns(c) || g.turnTimer + 1 < c.autoTurnTime
    ensures var t := QuietTickMoving(c, bound)(g);
      && t.next.direction == g.direction && !t.next.isFrozen && t.next.alive
      && t.next.turnTimer == (if AutoTurns(c) then g.turnTimer + 1 else 0)
      && t.next.lifetimeLeft == (if c.lifetime > 0 then Some(c.lifetime) else None)
      && t.sent == (if bound then [Resume] else [])
      && t.next.unfreezeInvokes == [] && ValidMoving(c, t.next)
  {
    AdvancePair(1, 0);
    var g0 := MovingTimers(g);
    assert g0 == g.(unfreezeInvokes := []);
    var u := UnfreezeMoving(c, g0, bound);
    var f := FixedUpdateMoving(c, u.next, bound, false);
    assert f.next == AutoTurnStep(c, u.next) && f.sent == [];
    assert TickMoving(c, g, bound, false) == DueThenFixedUpdate(c, g0, bound, true, false);
  }

  /**
   * LifetimeRoutine: a running, unfrozen platform whose lifetime waits `k`
   * more ticks is still there after k - 1 quiet ticks and is destroyed on
   * the k-th, raising OnDestroyed once; being unfrozen, it makes no
   * spawner call on the way.
   */
  lemma {:induction false} LifetimeEndsInDestruction(c: MoveConfig, s: MoveState, bound: bool, k: nat)
    requires ValidMoving(c, s) && s.alive && !s.isFrozen && s.unfreezeInvokes == [] && s.lifetimeLeft == Some(k)
    ensures var w := Ticks(QuietTickMoving(c, bound), s, k - 1);
      && w.next.alive && w.next.destroyedEvents == s.destroyedEvents && w.sent == []
    ensures var w := Ticks(QuietTickMoving(c, bound), s, k);
      && !w.next.alive && w.next.destroyedEvents == s.destroyedEvents + 1 && w.sent == []
    decreases k
  {
    if k == 1 {
      LifetimeDueTick(c, s, bound);
    } else {
      LifetimeWaitTick(c, s, bound, k);
      LifetimeEndsInDestruction(c, QuietTickMoving(c, bound)(s).next, bound, k - 1);
    }
  }

  /** The tick on which the lifetime runs out destroys an unfrozen platform silently. */
  lemma LifetimeDueTick(c: MoveConfig, s: MoveState, bound: bool)
    requires s.alive && !s.isFrozen && s.lifetimeLeft == Some(1)
    ensures var t := QuietTickMoving(c, bound)(s);
      && !t.next.alive && t.next.destroyedEvents == s.destroyedEvents + 1 && t.sent == []
  {
  }

  /** A quiet tick before the lifetime runs out keeps the platform, one tick closer to its end. */
  lemma LifetimeWaitTick(c: MoveConfig, s: MoveState, bound: bool, k: nat)
    requires ValidMoving(c, s) && s.alive && !s.isFrozen && s.unfreezeInvokes == [] && s.lifetimeLeft == Some(k)
    requires k > 1
    ensures var t := QuietTickMoving(c, bound)(s);
      && ValidMoving(c, t.next) && t.next.alive && !t.next.isFrozen && t.next.unfreezeInvokes == []
      && t.next.lifetimeLeft == Some(k - 1) && t.next.destroyedEvents == s.destroyedEvents && t.sent == []
  {
    QuietTickMoves(c, s, bound);
  }

  /**
   * A frozen platform whose one Unfreeze is `d` ticks away, thawed with a
   * lifetime to run, is destroyed exactly `lifetime` ticks after the thaw.
   */
  lemma ThawedPlatformLivesForLifetime(c: MoveConfig, f: MoveState, bound: bool, d: nat)
    requires ValidMoving(c, f) && f.alive && f.isFrozen && d >= 1 && f.unfreezeInvokes == [d]
    requires !AutoTurns(c) || f.turnTimer + 1 < c.autoTurnTime
    requires c.lifetime > 0
    ensures var w := Ticks(QuietTickMoving(c, bound), f, d).next;
      && Ticks(QuietTickMoving(c, bound), w, c.lifetime - 1).next.alive
      && !Ticks(QuietTickMoving(c, bound), w, c.lifetime).next.alive
  {
    var w := Ticks(QuietTickMoving(c, bound), f, d).next;
    assert ValidMoving(c, w) && w.alive && !w.isFrozen && w.unfreezeInvokes == [] && w.lifetimeLeft == Some(c.lifetime) by {
      FrozenMovingThaws(c, f, bound, d);
    }
    LifetimeEndsInDestruction(c, w, bound, c.lifetime);
  }

  /**
   * A freeze of `d` ticks does not shorten a platform's life: whatever was
   * left of its lifetime when frozen, it is destroyed exactly `lifetime`
   * ticks after the thaw.
   */
  lemma MovingLifetimeRestartsAfterFreeze(c: MoveConfig, s: MoveState, bound: bool, d: nat)
    requires ValidMoving(c, s) && s.alive && !s.isFrozen && s.unfreezeInvokes == [] && c.canBeFrozen
    requires d >= 1 && (!AutoTurns(c) || s.turnTimer + 1 < c.autoTurnTime) && c.lifetime > 0
    ensures var f := FreezeMoving(c, s, bound, d).next;
      var w := Ticks(QuietTickMoving(c, bound), f, d).next;
      && Ticks(QuietTickMoving(c, bound), w, c.lifetime - 1).next.alive
      && !Ticks(QuietTickMoving(c, bound), w, c.lifetime).next.alive
  {
    ThawedPlatformLivesForLifetime(c, FreezeMoving(c, s, bound, d).next, bound, d);
  }

  // ---------------------------------------------------------------------------
  // The platform object
  // ---------------------------------------------------------------------------

  class MovingPlatform {
    const config: MoveConfig
    var isFrozen: bool
    var moveDirection: Vec
    var moving: bool
    var turnTimer: nat
    var lifetimeCoroutine: Option<nat>
    var unfreezeInvokes: seq<nat>
    var alive: bool
    var destroyedEvents: nat
    var mySpawner: PlatformSpawner?

    function State(): MoveState
      reads this
    {
      MoveState(isFrozen, moveDirection, moving, turnTimer, lifetimeCoroutine, unfreezeInvokes,
                alive, destroyedEvents)
    }

    /** A placed platform, before Start, with no spawner bound. */
    constructor (config: MoveConfig, direction: Vec)
      ensures this.config == config && mySpawner == null
      ensures State() == PlacedMoving(direction)
    {
      this.config := config;
      isFrozen, moveDirection, moving, turnTimer := false, direction, false, 0;
      lifetimeCoroutine, unfreezeInvokes, alive, destroyedEvents := None, [], true, 0;
      mySpawner := null;
    }

    method Init(spawner: PlatformSpawner?)
      modifies this`mySpawner
      ensures mySpawner == spawner
    {
      mySpawner := spawner;
    }

    method StartMoving()
      modifies this`moving
      ensures State() == MotionFollowsDirection(config, old(State()))
    {
      if !isFrozen {
        moving := true;
      }
    }

    method Start()
      modifies this`moving, this`lifetimeCoroutine
      ensures State() == StartMovingPlatform(config, old(State()))
    {
      StartMoving();
      if config.lifetime > 0 {
        lifetimeCoroutine := Some(config.lifetime);
      } else {
        lifetimeCoroutine := None;
      }
    }

    method TurnAround()
      modifies this`moveDirection, this`moving, this`turnTimer
      ensures State() == Turned(config, old(State()))
    {
      moveDirection := Neg(moveDirection);
      if !isFrozen {
        moving := true;
      }
      turnTimer := 0;
    }

    method OnDestroy()
      modifies this`unfreezeInvokes, SpawnerSet(mySpawner)`canSpawn
      ensures var st := OnDestroyMoving(old(State()), mySpawner != null);
        State() == st.next && (mySpawner != null ==> mySpawner.canSpawn == After(old(mySpawner.canSpawn), st.sent))
    {
      unfreezeInvokes := [];
      if isFrozen && mySpawner != null {
        mySpawner.ResumeSpawning();
      }
    }

    method DestroyPlatform()
      modifies this`destroyedEvents, this`lifetimeCoroutine, this`alive, this`unfreezeInvokes,
        SpawnerSet(mySpawner)`canSpawn
      ensures var st := DestroyMoving(old(State()), mySpawner != null);
        State() == st.next && (mySpawner != null ==> mySpawner.canSpawn == After(old(mySpawner.canSpawn), st.sent))
    {
      ghost var flag0 := if mySpawner != null then mySpawner.canSpawn else false;
      ghost var first: seq<Signal> := if isFrozen && mySpawner != null then [Resume] else [];
      if isFrozen && mySpawner != null {
        mySpawner.ResumeSpawning();
      }
      destroyedEvents := destroyedEvents + 1;
      lifetimeCoroutine := None;
      if alive {
        alive := false;
        ghost var teardown := OnDestroyMoving(State(), mySpawner != null);
        OnDestroy();
        AfterConcat(flag0, first, teardown.sent);
      }
    }

    method CheckWallCollision(wallHit: bool)
      modifies this`moveDirection, this`moving, this`turnTimer, this`destroyedEvents,
        this`lifetimeCoroutine, this`alive, this`unfreezeInvokes, SpawnerSet(mySpawner)`canSpawn
      ensures var st := WallCheck(config, old(State()), mySpawner != null, wallHit);
        State() == st.next && (mySpawner != null ==> mySpawner.canSpawn == After(old(mySpawner.canSpawn), st.sent))
    {
      if !config.hasCollider || !wallHit {
        return;
      }
      if config.isRoundTrip {
        TurnAround();
      } else {
        DestroyPlatform();
      }
    }

    method FixedUpdate(wallHit: bool)
      modifies this`moveDirection, this`moving, this`turnTimer, this`destroyedEvents,
        this`lifetimeCoroutine, this`alive, this`unfreezeInvokes, SpawnerSet(mySpawner)`canSpawn
      ensures var st := FixedUpdateMoving(config, old(State()), mySpawner != null, wallHit);
        State() == st.next && (mySpawner != null ==> mySpawner.canSpawn == After(old(mySpawner.canSpawn), st.sent))
    {
      if isFrozen {
        return;
      }
      moving := true;
      CheckWallCollision(wallHit);
      if config.isRoundTrip && config.autoTurnTime > 0 {
        turnTimer := turnTimer + 1;
        if turnTimer >= config.autoTurnTime {
          TurnAround();
          turnTimer := 0;
        }
      }
    }

    method Freeze(duration: nat)
      modifies this`lifetimeCoroutine, this`isFrozen, this`moving, this`unfreezeInvokes,
        SpawnerSet(mySpawner)`canSpawn
      ensures var st := FreezeMoving(config, old(State()), mySpawner != null, duration);
        State() == st.next && (mySpawner != null ==> mySpawner.canSpawn == After(old(mySpawner.canSpawn), st.sent))
    {
      if !config.canBeFrozen || isFrozen {
        return;
      }
      lifetimeCoroutine := None;
      isFrozen := true;
      moving := false;
      if mySpawner != null {
        mySpawner.PauseSpawning();
      }
      unfreezeInvokes := unfreezeInvokes + [duration];
    }

    method Unfreeze()
      modifies this`isFrozen, this`moving, this`lifetimeCoroutine, SpawnerSet(mySpawner)`canSpawn
      ensures var st := UnfreezeMoving(config, old(State()), mySpawner != null);
        State() == st.next && (mySpawner != null ==> mySpawner.canSpawn == After(old(mySpawner.canSpawn), st.sent))
    {
      if !isFrozen {
        return;
      }
      isFrozen := false;
      StartMoving();
      if mySpawner != null {
        mySpawner.ResumeSpawning();
      }
      if config.lifetime > 0 {
        lifetimeCoroutine := Some(config.lifetime);
      }
    }

    method Tick(wallHit: bool)
      modifies this`isFrozen, this`moveDirection, this`moving, this`turnTimer, this`destroyedEvents,
        this`lifetimeCoroutine, this`alive, this`unfreezeInvokes, SpawnerSet(mySpawner)`canSpawn
      ensures var st := TickMoving(config, old(State()), mySpawner != null, wallHit);
        State() == st.next && (mySpawner != null ==> mySpawner.canSpawn == After(old(mySpawner.canSpawn), st.sent))
    {
      if !alive {
        return;
      }
      if lifetimeCoroutine.Some? && lifetimeCoroutine.value <= 1 {
        DestroyPlatform();
        return;
      }
      ghost var bound := mySpawner != null;
      ghost var flag0 := if bound then mySpawner.canSpawn else false;
      var dueUnfreeze := Fires(unfreezeInvokes);
      unfreezeInvokes := Advance(unfreezeInvokes);
      if lifetimeCoroutine.Some? {
        lifetimeCoroutine := Some(lifetimeCoroutine.value - 1);
      }
      ghost var s0 := State();
      assert s0 == MovingTimers(old(State()));
      ghost var u: Step<MoveState> := Step(s0, []);
      if dueUnfreeze {
        Unfreeze();
        u := UnfreezeMoving(config, s0, bound);
      }
      ghost var flag1 := if bound then mySpawner.canSpawn else false;
      assert State() == u.next && (bound ==> flag1 == After(flag0, u.sent));
      FixedUpdate(wallHit);
      ghost var f := FixedUpdateMoving(config, u.next, bound, wallHit);
      assert State() == f.next && (bound ==> mySpawner.canSpawn == After(flag1, f.sent));
      AfterConcat(flag0, u.sent, f.sent);
      assert DueThenFixedUpdate(config, s0, bound, dueUnfreeze, wallHit) == Step(f.next, u.sent + f.sent);
    }
  }
}
