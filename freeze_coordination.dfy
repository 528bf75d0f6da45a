/**
 * How freezes of several hazards meet at one PlatformSpawner.
 *
 * Every freezable hazard that is bound to a spawner follows the same
 * protocol: Freeze is ignored while frozen and otherwise calls
 * PauseSpawning; Unfreeze is ignored unless frozen and otherwise calls
 * ResumeSpawning. The spawner keeps a single boolean (PlatformSpawner.cs
 * lines 107-117), so with one hazard the flag is exact, but with two
 * hazards whose freezes overlap the first thaw resumes production while the
 * second hazard is still frozen. A counted pause, given here as a separate
 * variant, does not have that gap.
 */
module Coordination {
  import opened Engine
  import opened Spawning
  import opened Spikes

  /** A freeze or a thaw of the hazard with the given index. */
  datatype FreezeEvent = FreezeHit(hazard: nat) | Thaw(hazard: nat)

  /** The calls the hazards make on their shared spawner, given which of them start out frozen. */
  function SpawnerCalls(frozen: set<nat>, evs: seq<FreezeEvent>): seq<Signal>
    decreases |evs|
  {
    if evs == [] then []
    else
      match evs[0]
      case FreezeHit(h) =>
        (if h in frozen then [] else [Pause]) + SpawnerCalls(frozen + {h}, evs[1..])
      case Thaw(h) =>
        (if h in frozen then [Resume] else []) + SpawnerCalls(frozen - {h}, evs[1..])
  }

  /** The hazards frozen after the events. */
  function FrozenAfter(frozen: set<nat>, evs: seq<FreezeEvent>): set<nat>
    decreases |evs|
  {
    if evs == [] then frozen
    else
      match evs[0]
      case FreezeHit(h) => FrozenAfter(frozen + {h}, evs[1..])
      case Thaw(h) => FrozenAfter(frozen - {h}, evs[1..])
  }

  /** Every event concerns hazard `h`. */
  predicate OnlyHazard(evs: seq<FreezeEvent>, h: nat)
  {
    forall i :: 0 <= i < |evs| ==> evs[i].hazard == h
  }

  /**
   * With a single hazard the boolean flag is exact: if it matches the
   * hazard's state at the start, production is allowed after any history
   * exactly when the hazard is not frozen.
   */
  lemma {:induction false} OneHazardFlagExact(frozen: set<nat>, evs: seq<FreezeEvent>, h: nat, flag: bool)
    requires frozen <= {h} && OnlyHazard(evs, h)
    requires flag <==> frozen == {}
    ensures FrozenAfter(frozen, evs) <= {h}
    ensures After(flag, SpawnerCalls(frozen, evs)) <==> FrozenAfter(frozen, evs) == {}
    decreases |evs|
  {
    if evs != [] {
      var e := evs[0];
      assert e.hazard == h;
      var rest := evs[1..];
      assert OnlyHazard(rest, h) by {
        forall i | 0 <= i < |rest| ensures rest[i].hazard == h {
          assert rest[i] == evs[i + 1];
        }
      }
      var (head, frozen') := match e
        case FreezeHit(_) => (if h in frozen then [] else [Pause], frozen + {h})
        case Thaw(_) => (if h in frozen then [Resume] else [], frozen - {h});
      assert SpawnerCalls(frozen, evs) == head + SpawnerCalls(frozen', rest);
      assert FrozenAfter(frozen, evs) == FrozenAfter(frozen', rest);
      AfterConcat(flag, head, SpawnerCalls(frozen', rest));
      OneHazardFlagExact(frozen', rest, h, After(flag, head));
    }
  }

  /**
   * With two hazards it is not: both frozen, the first thawed, and the
   * spawner produces again while the second is still frozen.
   */
  lemma OverlappingFreezesResumeEarly()
    ensures var evs := [FreezeHit(0), FreezeHit(1), Thaw(0)];
      && FrozenAfter({}, evs) == {1}
      && After(true, SpawnerCalls({}, evs))
  {
    var evs := [FreezeHit(0), FreezeHit(1), Thaw(0)];
    assert evs[1..] == [FreezeHit(1), Thaw(0)] && evs[1..][1..] == [Thaw(0)] && evs[1..][1..][1..] == [];
    assert SpawnerCalls({}, evs) == [Pause, Pause, Resume];
  }

  /** A spike frozen for `d` ticks pauses its spawner once and resumes it once, on the `d`-th tick. */
  lemma SpikeFreezeRoundTrip(c: SpikeConfig, s: SpikeState, d: nat)
    requires ValidSpike(c, s) && s.alive && !s.isFrozen && s.unfreezeInvokes == [] && c.canBeFrozen && d >= 1
    ensures var f := FreezeSpike(c, s, true, d);
      var w := Ticks(QuietTick(c, true), f.next, d);
      && f.sent == [Pause] && w.sent == [Resume] && !w.next.isFrozen
  {
    var f := FreezeSpike(c, s, true, d);
    assert f.next.unfreezeInvokes == [d];
    FrozenSpikeThaws(c, f.next, true, d);
  }

  /** ... and for the first `j < d` ticks it stays frozen and makes no further call. */
  lemma SpikeFreezeHolds(c: SpikeConfig, s: SpikeState, d: nat, j: nat)
    requires ValidSpike(c, s) && s.alive && !s.isFrozen && s.unfreezeInvokes == [] && c.canBeFrozen && j < d
    ensures var f := FreezeSpike(c, s, true, d);
      var w := Ticks(QuietTick(c, true), f.next, j);
      && f.sent == [Pause] && w.sent == [] && w.next.isFrozen
  {
    var f := FreezeSpike(c, s, true, d);
    assert f.next.unfreezeInvokes == [d];
    FrozenSpikeWaits(c, f.next, true, d, j);
  }

  /**
   * The same with two falling spikes bound to one spawner: frozen in the
   * same tick for `d1 < d2` ticks, after `d1` quiet ticks the spawner has
   * received Pause, Pause, Resume and may spawn, while the second spike is
   * still frozen.
   */
  lemma TwoSpikesShareSpawner(c1: SpikeConfig, s1: SpikeState, c2: SpikeConfig, s2: SpikeState, d1: nat, d2: nat)
    requires ValidSpike(c1, s1) && s1.alive && !s1.isFrozen && s1.unfreezeInvokes == [] && c1.canBeFrozen
    requires ValidSpike(c2, s2) && s2.alive && !s2.isFrozen && s2.unfreezeInvokes == [] && c2.canBeFrozen
    requires 1 <= d1 < d2
    ensures var f1 := FreezeSpike(c1, s1, true, d1);
      var f2 := FreezeSpike(c2, s2, true, d2);
      var w1 := Ticks(QuietTick(c1, true), f1.next, d1);
      var w2 := Ticks(QuietTick(c2, true), f2.next, d1);
      && !w1.next.isFrozen && w2.next.isFrozen
      && f1.sent + f2.sent + w1.sent + w2.sent == [Pause, Pause, Resume]
      && After(true, f1.sent + f2.sent + w1.sent + w2.sent)
  {
    SpikeFreezeRoundTrip(c1, s1, d1);
    SpikeFreezeHolds(c2, s2, d2, d1);
    assert [Pause] + [Pause] + [Resume] + [] == [Pause, Pause, Resume];
  }

  // ---------------------------------------------------------------------------
  // Variant: a counted pause
  // ---------------------------------------------------------------------------

  /** A spawner that counts outstanding pauses; it may spawn when the count is 0. */
  function PausesAfter(count: nat, sent: seq<Signal>): (r: nat)
    ensures sent == [] ==> r == count
    decreases |sent|
  {
    if sent == [] then count
    else PausesAfter(if sent[0] == Pause then count + 1 else if count > 0 then count - 1 else 0, sent[1..])
  }

  lemma {:induction false} PausesAfterConcat(count: nat, a: seq<Signal>, b: seq<Signal>)
    ensures PausesAfter(PausesAfter(count, a), b) == PausesAfter(count, a + b)
    decreases |a|
  {
    if a == [] {
      assert a + b == b;
    } else {
      assert (a + b)[0] == a[0] && (a + b)[1..] == a[1..] + b;
      PausesAfterConcat(if a[0] == Pause then count + 1 else if count > 0 then count - 1 else 0, a[1..], b);
    }
  }

  /**
   * With a counted pause, any number of hazards following the freeze
   * protocol keep the count equal to the number frozen, so the spawner
   * produces exactly when no hazard is frozen.
   */
  lemma {:induction false} CountedPauseTracksFrozen(frozen: set<nat>, evs: seq<FreezeEvent>)
    ensures PausesAfter(|frozen|, SpawnerCalls(frozen, evs)) == |FrozenAfter(frozen, evs)|
    ensures PausesAfter(|frozen|, SpawnerCalls(frozen, evs)) == 0 <==> FrozenAfter(frozen, evs) == {}
    decreases |evs|
  {
    if evs != [] {
      var rest := evs[1..];
      match evs[0]
      case FreezeHit(h) =>
        var head: seq<Signal> := if h in frozen then [] else [Pause];
        assert SpawnerCalls(frozen, evs) == head + SpawnerCalls(frozen + {h}, rest);
        assert PausesAfter(|frozen|, head) == |frozen + {h}| by {
          if h in frozen {
            assert frozen + {h} == frozen;
          } else {
            assert [Pause][1..] == [];
            assert PausesAfter(|frozen|, [Pause]) == PausesAfter(|frozen| + 1, []);
            assert |frozen + {h}| == |frozen| + 1;
          }
        }
        PausesAfterConcat(|frozen|, head, SpawnerCalls(frozen + {h}, rest));
        CountedPauseTracksFrozen(frozen + {h}, rest);
      case Thaw(h) =>
        var head: seq<Signal> := if h in frozen then [Resume] else [];
        assert SpawnerCalls(frozen, evs) == head + SpawnerCalls(frozen - {h}, rest);
        assert PausesAfter(|frozen|, head) == |frozen - {h}| by {
          if h in frozen {
            assert [Resume][1..] == [];
            assert PausesAfter(|frozen|, [Resume]) == PausesAfter(|frozen| - 1, []);
            assert |frozen - {h}| == |frozen| - 1;
          } else {
            assert frozen - {h} == frozen;
          }
        }
        PausesAfterConcat(|frozen|, head, SpawnerCalls(frozen - {h}, rest));
        CountedPauseTracksFrozen(frozen - {h}, rest);
    }
  }

  // ---------------------------------------------------------------------------
  // The pool counter and the double destroy callback
  // ---------------------------------------------------------------------------

  /**
   * A FallingPlatform that lands raises OnDestroyed twice (once on contact,
   * once from OnDestroy), so in pool mode one landing frees two places: a
   * full pool of `maxPlatforms` live platforms loses one and the loop then
   * spawns two, one more live platform than maxPlatforms allows.
   */
  lemma LandingFreesTwoPoolPlaces(p: PlatformState, c: SpawnerConfig, s: SpawnerState)
    requires p.alive
    requires !c.oneAtATime && c.prefab.Template? && s.canSpawn && s.count == c.maxPlatforms
    ensures var landed := GroundContact(p, true);
      var callbacks := landed.destroyedEvents - p.destroyedEvents;
      var freed := Run(c, s, seq(callbacks, _ => PlatformDestroyed));
      && !landed.alive && callbacks == 2
      && freed.count == c.maxPlatforms - 2
      && WillSpawn(c, freed) && WillSpawn(c, SpawnerIteration(c, freed))
      && SpawnerIteration(c, SpawnerIteration(c, freed)).count == c.maxPlatforms
  {
    var evs := seq(2, _ => PlatformDestroyed);
    assert evs[1..] == [PlatformDestroyed] && evs[1..][1..] == [];
    var once := s.(count := s.count - 1);
    assert Run(c, s, evs) == Run(c, once, evs[1..]);
    assert Run(c, once, evs[1..]) == Run(c, once.(count := once.count - 1), []);
  }
}
