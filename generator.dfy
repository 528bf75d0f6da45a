/**
 * Generator (Assets/Scripts/Generator.cs): a switch the player toggles with
 * the interact key while standing in range. Each toggle fires onTurnOn or
 * onTurnOff, which the scene wires to devices such as electric fields and
 * updrafts.
 */
module Generators {

  /** Serialized settings, and which optional references are set. */
  datatype GenConfig = GenConfig(
    startActivated: bool,
    hasUI: bool,
    hasRenderer: bool,
    hasOnSprite: bool,
    hasOffSprite: bool)

  /** The UnityEvents the generator fires. */
  datatype GenEvent = TurnedOn | TurnedOff

  /** The sprite shown (its colour goes with it): the authored one, onSprite or offSprite. */
  datatype GenSprite = AuthoredSprite | OnSprite | OffSprite

  /** Abstract value of a generator; `fired` is every event it has fired, oldest first. */
  datatype GenState = GenState(
    isActivated: bool,
    isPlayerInRange: bool,
    uiActive: bool,
    sprite: GenSprite,
    fired: seq<GenEvent>)

  function PlacedGenerator(uiActive: bool): GenState
  {
    GenState(false, false, uiActive, AuthoredSprite, [])
  }

  /** The event that announces the activation state `on`. */
  function EventFor(on: bool): GenEvent
  {
    if on then TurnedOn else TurnedOff
  }

  /** The sprite shows the activation state wherever a sprite for that state is set. */
  predicate SpriteShowsState(c: GenConfig, s: GenState)
  {
    && (c.hasRenderer && c.hasOnSprite && s.isActivated ==> s.sprite == OnSprite)
    && (c.hasRenderer && c.hasOffSprite && !s.isActivated ==> s.sprite == OffSprite)
  }

  /**
   * The states a started generator can reach: the last event fired announces
   * the current state, the prompt is shown exactly while the player is in
   * range, and the sprite shows the state.
   */
  predicate ValidGenerator(c: GenConfig, s: GenState)
  {
    && |s.fired| > 0 && s.fired[|s.fired| - 1] == EventFor(s.isActivated)
    && (c.hasUI ==> s.uiActive == s.isPlayerInRange)
    && SpriteShowsState(c, s)
  }

  /** UpdateVisuals. */
  function VisualsGenerator(c: GenConfig, s: GenState): (r: GenState)
    ensures SpriteShowsState(c, r)
    ensures r == s.(sprite := r.sprite)
    ensures !c.hasRenderer ==> r == s
  {
    if !c.hasRenderer then s
    else if s.isActivated && c.hasOnSprite then s.(sprite := OnSprite)
    else if !s.isActivated && c.hasOffSprite then s.(sprite := OffSprite)
    else s
  }

  /** Start: activated as configured, the matching event fired once, the prompt hidden. */
  function StartGenerator(c: GenConfig, s: GenState): (r: GenState)
    ensures r.isActivated == c.startActivated
    ensures r.fired == s.fired + [EventFor(c.startActivated)]
    ensures !s.isPlayerInRange ==> ValidGenerator(c, r)
  {
    var v := VisualsGenerator(c, s.(isActivated := c.startActivated));
    v.(fired := v.fired + [EventFor(c.startActivated)],
       uiActive := if c.hasUI then false else v.uiActive)
  }

  /** ToggleGenerator: flip, fire the event for the new state, update the sprite. */
  function ToggleGenerator(c: GenConfig, s: GenState): (r: GenState)
    ensures r.isActivated == !s.isActivated
    ensures r.fired == s.fired + [EventFor(r.isActivated)]
    ensures r.isPlayerInRange == s.isPlayerInRange && r.uiActive == s.uiActive
    ensures ValidGenerator(c, s) ==> ValidGenerator(c, r)
  {
    var t := s.(isActivated := !s.isActivated);
    VisualsGenerator(c, t.(fired := t.fired + [EventFor(t.isActivated)]))
  }

  /** Update: the key toggles the generator only while the player is in range. */
  function UpdateGenerator(c: GenConfig, s: GenState, keyDown: bool): (r: GenState)
    ensures s.isPlayerInRange && keyDown ==> r == ToggleGenerator(c, s)
    ensures !(s.isPlayerInRange && keyDown) ==> r == s
    ensures ValidGenerator(c, s) ==> ValidGenerator(c, r)
  {
    if s.isPlayerInRange && keyDown then ToggleGenerator(c, s) else s
  }

  /** OnTriggerEnter2D (`entering`) and OnTriggerExit2D: only the player changes the range and the prompt. */
  function PlayerRange(c: GenConfig, s: GenState, isPlayer: bool, entering: bool): (r: GenState)
    ensures !isPlayer ==> r == s
    ensures isPlayer ==> r.isPlayerInRange == entering && (c.hasUI ==> r.uiActive == entering)
    ensures r.isActivated == s.isActivated && r.fired == s.fired && r.sprite == s.sprite
    ensures ValidGenerator(c, s) ==> ValidGenerator(c, r)
  {
    if !isPlayer then s
    else s.(isPlayerInRange := entering, uiActive := if c.hasUI then entering else s.uiActive)
  }

  /** Toggling twice restores the state and fires the two opposite events. */
  lemma ToggleTwiceRestores(c: GenConfig, s: GenState)
    requires ValidGenerator(c, s)
    ensures var r := ToggleGenerator(c, ToggleGenerator(c, s));
      && r.isActivated == s.isActivated
      && r.fired == s.fired + [EventFor(!s.isActivated), EventFor(s.isActivated)]
      && (c.hasRenderer && c.hasOnSprite && c.hasOffSprite ==> r == s.(fired := r.fired))
  {
    var t := ToggleGenerator(c, s);
    assert t.fired + [EventFor(s.isActivated)] == s.fired + [EventFor(!s.isActivated), EventFor(s.isActivated)];
  }

  /** A run of frames, one key reading each, from a started generator. */
  function RunFrames(c: GenConfig, s: GenState, keys: seq<bool>): (r: GenState)
    ensures ValidGenerator(c, s) ==> ValidGenerator(c, r)
    ensures r.isPlayerInRange == s.isPlayerInRange
    decreases |keys|
  {
    if keys == [] then s else RunFrames(c, UpdateGenerator(c, s, keys[0]), keys[1..])
  }

  /** The number of key presses in `keys`. */
  function Presses(keys: seq<bool>): nat
    decreases |keys|
  {
    if keys == [] then 0 else (if keys[0] then 1 else 0) + Presses(keys[1..])
  }

  /**
   * With the player in range, each key press toggles once and fires one
   * event: after the frames the generator is activated iff it was and an
   * even number of presses happened, or it was not and an odd number did.
   */
  lemma {:induction false} PressesToggle(c: GenConfig, s: GenState, keys: seq<bool>)
    requires s.isPlayerInRange
    ensures var r := RunFrames(c, s, keys);
      && |r.fired| == |s.fired| + Presses(keys)
      && (r.isActivated <==> (s.isActivated <==> Presses(keys) % 2 == 0))
    decreases |keys|
  {
    if keys != [] {
      PressesToggle(c, UpdateGenerator(c, s, keys[0]), keys[1..]);
    }
  }

  /** Out of range, no key press changes anything. */
  lemma {:induction false} OutOfRangeIgnoresKeys(c: GenConfig, s: GenState, keys: seq<bool>)
    requires !s.isPlayerInRange
    ensures RunFrames(c, s, keys) == s
    decreases |keys|
  {
    if keys != [] {
      OutOfRangeIgnoresKeys(c, s, keys[1..]);
    }
  }

  // ---------------------------------------------------------------------------
  // The generator object
  // ---------------------------------------------------------------------------

  class Generator {
    const config: GenConfig
    var isActivated: bool
    var isPlayerInRange: bool
    var uiActive: bool
    var sprite: GenSprite
    /** The listeners' view: every event fired so far. */
    var fired: seq<GenEvent>

    function State(): GenState
      reads this
    {
      GenState(isActivated, isPlayerInRange, uiActive, sprite, fired)
    }

    constructor (config: GenConfig, uiActive: bool)
      ensures this.config == config && State() == PlacedGenerator(uiActive)
    {
      this.config := config;
      isActivated, isPlayerInRange, this.uiActive, sprite, fired := false, false, uiActive, AuthoredSprite, [];
    }

    method UpdateVisuals()
      modifies this`sprite
      ensures State() == VisualsGenerator(config, old(State()))
    {
      if !config.hasRenderer {
        return;
      }
      if isActivated && config.hasOnSprite {
        sprite := OnSprite;
      } else if !isActivated && config.hasOffSprite {
        sprite := OffSprite;
      }
    }

    method Start()
      modifies this`isActivated, this`sprite, this`fired, this`uiActive
      ensures State() == StartGenerator(config, old(State()))
    {
      isActivated := config.startActivated;
      UpdateVisuals();
      fired := fired + [if isActivated then TurnedOn else TurnedOff];
      if config.hasUI {
        uiActive := false;
      }
    }

    method Toggle()
      modifies this`isActivated, this`sprite, this`fired
      ensures State() == ToggleGenerator(config, old(State()))
    {
      isActivated := !isActivated;
      if isActivated {
        fired := fired + [TurnedOn];
      } else {
        fired := fired + [TurnedOff];
      }
      UpdateVisuals();
    }

    method Update(keyDown: bool)
      modifies this`isActivated, this`sprite, this`fired
      ensures State() == UpdateGenerator(config, old(State()), keyDown)
    {
      if isPlayerInRange && keyDown {
        Toggle();
      }
    }

    method OnTriggerEnter2D(isPlayer: bool)
      modifies this`isPlayerInRange, this`uiActive
      ensures State() == PlayerRange(config, old(State()), isPlayer, true)
    {
      if isPlayer {
        isPlayerInRange := true;
        if config.hasUI {
          uiActive := true;
        }
      }
    }

    method OnTriggerExit2D(isPlayer: bool)
      modifies this`isPlayerInRange, this`uiActive
      ensures State() == PlayerRange(config, old(State()), isPlayer, false)
    {
      if isPlayer {
        isPlayerInRange := false;
        if config.hasUI {
          uiActive := false;
        }
      }
    }
  }
}
