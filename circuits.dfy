/**
 * A Generator's onTurnOn / onTurnOff events wired, in the scene, to
 * ElectricField.TurnOn / TurnOff or Updraft.TurnOn / TurnOff. The wiring is
 * scene data, not code; these lemmas say what any such wiring guarantees.
 */
module Circuits {
  import opened Generators
  import opened Electric
  import opened Updrafts

  /** A field that receives the events `evs` in order. */
  function FieldReceives(c: FieldConfig, f: FieldState, evs: seq<GenEvent>): FieldState
    decreases |evs|
  {
    if evs == [] then f else FieldReceives(c, SwitchField(c, f, evs[0] == TurnedOn), evs[1..])
  }

  /** An updraft that receives the events `evs` in order. */
  function UpdraftReceives(c: UpdraftConfig, u: UpdraftState, evs: seq<GenEvent>): UpdraftState
    decreases |evs|
  {
    if evs == [] then u else UpdraftReceives(c, SetWorking(c, u, evs[0] == TurnedOn), evs[1..])
  }

  /** After a non-empty run of events, a field is active exactly when the last one was TurnedOn. */
  lemma {:induction false} FieldFollowsLastEvent(c: FieldConfig, f: FieldState, evs: seq<GenEvent>)
    requires evs != []
    ensures var r := FieldReceives(c, f, evs);
      && (r.isActive <==> evs[|evs| - 1] == TurnedOn) && ShowsActive(c, r)
    decreases |evs|
  {
    if |evs| > 1 {
      FieldFollowsLastEvent(c, SwitchField(c, f, evs[0] == TurnedOn), evs[1..]);
    }
  }

  /** After a non-empty run of events, an updraft is working exactly when the last one was TurnedOn. */
  lemma {:induction false} UpdraftFollowsLastEvent(c: UpdraftConfig, u: UpdraftState, evs: seq<GenEvent>)
    requires evs != []
    ensures UpdraftReceives(c, u, evs).isWorking <==> evs[|evs| - 1] == TurnedOn
    decreases |evs|
  {
    if |evs| > 1 {
      UpdraftFollowsLastEvent(c, SetWorking(c, u, evs[0] == TurnedOn), evs[1..]);
    }
  }

  /**
   * A field wired to a generator is in step with it: whatever state the
   * field was in, once it has received the generator's events from some
   * point on, it is active exactly when the generator is activated.
   */
  lemma FieldFollowsGenerator(gc: GenConfig, g: GenState, fc: FieldConfig, f: FieldState, from: nat)
    requires ValidGenerator(gc, g) && from < |g.fired|
    ensures var r := FieldReceives(fc, f, g.fired[from..]);
      r.isActive == g.isActivated && ShowsActive(fc, r)
  {
    FieldFollowsLastEvent(fc, f, g.fired[from..]);
  }

  /** The same for an updraft: it is working exactly when the generator is activated, frozen or not. */
  lemma UpdraftFollowsGenerator(gc: GenConfig, g: GenState, uc: UpdraftConfig, u: UpdraftState, from: nat)
    requires ValidGenerator(gc, g) && from < |g.fired|
    ensures UpdraftReceives(uc, u, g.fired[from..]).isWorking == g.isActivated
  {
    UpdraftFollowsLastEvent(uc, u, g.fired[from..]);
  }
}
