/**
 * ElectricField (Assets/Scripts/ElectricField.cs): a deadly field that a
 * generator switches on and off. While on, its collider and sprite are
 * enabled and a player entering it dies; while off, it is invisible and
 * passable.
 */
module Electric {

  /** Serialized setting, and which components Awake found. */
  datatype FieldConfig = FieldConfig(
    startActive: bool,
    hasCollider: bool,
    hasRenderer: bool,
    hasAnimator: bool)

  /** Abstract value of a field; `animatorIsOn` is the animator's IsOn parameter. */
  datatype FieldState = FieldState(
    isActive: bool,
    colliderEnabled: bool,
    rendererEnabled: bool,
    animatorIsOn: bool)

  /** A field as placed in the scene: components enabled, not yet active. */
  function PlacedField(): FieldState
  {
    FieldState(false, true, true, false)
  }

  /** Every present component shows whether the field is active. */
  predicate ShowsActive(c: FieldConfig, s: FieldState)
  {
    && (c.hasCollider ==> s.colliderEnabled == s.isActive)
    && (c.hasRenderer ==> s.rendererEnabled == s.isActive)
    && (c.hasAnimator ==> s.animatorIsOn == s.isActive)
  }

  /** UpdateState: the present components follow the active flag; absent ones are untouched. */
  function RefreshField(c: FieldConfig, s: FieldState): (r: FieldState)
    ensures ShowsActive(c, r) && r.isActive == s.isActive
    ensures !c.hasCollider ==> r.colliderEnabled == s.colliderEnabled
    ensures !c.hasRenderer ==> r.rendererEnabled == s.rendererEnabled
    ensures !c.hasAnimator ==> r.animatorIsOn == s.animatorIsOn
  {
    s.(colliderEnabled := if c.hasCollider then s.isActive else s.colliderEnabled,
       rendererEnabled := if c.hasRenderer then s.isActive else s.rendererEnabled,
       animatorIsOn := if c.hasAnimator then s.isActive else s.animatorIsOn)
  }

  /** Start: active as configured. */
  function StartField(c: FieldConfig, s: FieldState): (r: FieldState)
    ensures r.isActive == c.startActive && ShowsActive(c, r)
  {
    RefreshField(c, s.(isActive := c.startActive))
  }

  /** TurnOn (`on`) and TurnOff. */
  function SwitchField(c: FieldConfig, s: FieldState, on: bool): (r: FieldState)
    ensures r.isActive == on && ShowsActive(c, r)
    ensures ShowsActive(c, s) && s.isActive == on ==> r == s
  {
    RefreshField(c, s.(isActive := on))
  }

  /** OnTriggerEnter2D: whether the entering collider's player dies. */
  function KillsOnEnter(s: FieldState, isPlayer: bool, hasController: bool): bool
  {
    s.isActive && isPlayer && hasController
  }

  /** A switched-off field is passable and kills nobody; a switched-on one kills a player who enters. */
  lemma SwitchDecidesDanger(c: FieldConfig, s: FieldState, on: bool)
    ensures var r := SwitchField(c, s, on);
      && (KillsOnEnter(r, true, true) <==> on)
      && (!on ==> !KillsOnEnter(r, true, true) && (c.hasCollider ==> !r.colliderEnabled))
      && (on && c.hasCollider ==> r.colliderEnabled)
  {
  }

  /** Switching the same way twice is the same as switching once. */
  lemma SwitchIdempotent(c: FieldConfig, s: FieldState, on: bool)
    ensures SwitchField(c, SwitchField(c, s, on), on) == SwitchField(c, s, on)
  {
  }

  // ---------------------------------------------------------------------------
  // The field object
  // ---------------------------------------------------------------------------

  class ElectricField {
    const config: FieldConfig
    var isActive: bool
    var colliderEnabled: bool
    var rendererEnabled: bool
    var animatorIsOn: bool

    function State(): FieldState
      reads this
    {
      FieldState(isActive, colliderEnabled, rendererEnabled, animatorIsOn)
    }

    constructor (config: FieldConfig)
      ensures this.config == config && State() == PlacedField()
    {
      this.config := config;
      isActive, colliderEnabled, rendererEnabled, animatorIsOn := false, true, true, false;
    }

    method UpdateState()
      modifies this`colliderEnabled, this`rendererEnabled, this`animatorIsOn
      ensures State() == RefreshField(config, old(State()))
    {
      if config.hasCollider {
        colliderEnabled := isActive;
      }
      if config.hasRenderer {
        rendererEnabled := isActive;
      }
      if config.hasAnimator {
        animatorIsOn := isActive;
      }
    }

    method Start()
      modifies this
      ensures State() == StartField(config, old(State()))
    {
      isActive := config.startActive;
      UpdateState();
    }

    method TurnOn()
      modifies this
      ensures State() == SwitchField(config, old(State()), true)
    {
      isActive := true;
      UpdateState();
    }

    method TurnOff()
      modifies this
      ensures State() == SwitchField(config, old(State()), false)
    {
      isActive := false;
      UpdateState();
    }

    method OnTriggerEnter2D(isPlayer: bool, hasController: bool) returns (killed: bool)
      ensures killed == KillsOnEnter(State(), isPlayer, hasController)
      ensures killed <==> isActive && isPlayer && hasController
    {
      killed := false;
      if isActive && isPlayer {
        if hasController {
          killed := true;
        }
      }
    }
  }
}
