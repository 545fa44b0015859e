/** The layer state that `process_record_user` drives, the framework
    primitives it calls, and the handler itself.
 */
module Handler {
  import opened Keycodes
  import opened Layout

  /** The part of the firmware's layer state this keymap touches: the set of
      momentarily active layers (`layer_state`) and the default layer.
      The primitives below are the framework's, with their documented meaning. */
  datatype LayerState = LayerState(active: set<Layer>, defaultLayer: Layer) {

    /** `layer_on(l)`: `l` becomes active, nothing else changes. */
    function LayerOn(l: Layer): (r: LayerState)
      ensures l in r.active
      ensures forall m :: m != l ==> (m in r.active <==> m in active)
      ensures r.defaultLayer == defaultLayer
    {
      LayerState(active + {l}, defaultLayer)
    }

    /** `layer_off(l)`: `l` becomes inactive, nothing else changes. */
    function LayerOff(l: Layer): (r: LayerState)
      ensures l !in r.active
      ensures forall m :: m != l ==> (m in r.active <==> m in active)
      ensures r.defaultLayer == defaultLayer
    {
      LayerState(active - {l}, defaultLayer)
    }

    /** `update_tri_layer(a, b, c)`: `c` is turned on when `a` and `b` are both
        active and turned off otherwise. */
    function UpdateTriLayer(a: Layer, b: Layer, c: Layer): (r: LayerState)
      ensures c in r.active <==> a in active && b in active
      ensures forall m :: m != c ==> (m in r.active <==> m in active)
      ensures r.defaultLayer == defaultLayer
    {
      if a in active && b in active then LayerOn(c) else LayerOff(c)
    }

    /** `set_single_persistent_default_layer(l)`: `l` becomes the only default
        layer (and is written to EEPROM, which is not modelled); the active
        layers are untouched. */
    function SetSinglePersistentDefaultLayer(l: Layer): (r: LayerState)
      ensures r.defaultLayer == l
      ensures r.active == active
    {
      LayerState(active, l)
    }

    /** The layers the framework consults when it looks a key up, its
        `layer_state | default_layer_state`: the active layers and the default. */
    function Visible(): (on: set<Layer>)
      ensures forall m :: m in on <==> m == defaultLayer || m in active
    {
      active + {defaultLayer}
    }
  }

  /** The tri-layer rule: ADJUST is on exactly when LOWER and RAISE both are. */
  predicate TriLayerHolds(s: LayerState)
  {
    Adjust in s.active <==> Lower in s.active && Raise in s.active
  }

  /** One key transition: the keycode and `record->event.pressed`. */
  datatype Event = Event(keycode: Keycode, pressed: bool)

  /** The new layer state and the handler's return value: `true` lets the
      framework process the key as usual, `false` means it was handled here. */
  datatype Outcome = Outcome(state: LayerState, passThrough: bool)

  /** `process_record_user` as a function of the layer state before the event. */
  function Handle(s: LayerState, ev: Event): (r: Outcome)
    // Only QWERTY, LOWER and RAISE are handled, on press and on release alike.
    ensures r.passThrough <==> !IsCustom(ev.keycode)
    // Every other keycode leaves the state alone.
    ensures !IsCustom(ev.keycode) ==> r.state == s
    // QWERTY: a press makes the base layer the default; nothing else changes.
    ensures ev.keycode == QwertyKey ==>
      r.state.active == s.active &&
      r.state.defaultLayer == (if ev.pressed then Qwerty else s.defaultLayer)
    // LOWER: the layer follows the key, ADJUST follows the tri-layer rule.
    ensures ev.keycode == LowerKey ==>
      (Lower in r.state.active <==> ev.pressed) &&
      TriLayerHolds(r.state) &&
      r.state.defaultLayer == s.defaultLayer &&
      forall m :: m != Lower && m != Adjust ==> (m in r.state.active <==> m in s.active)
    // RAISE: symmetric to LOWER.
    ensures ev.keycode == RaiseKey ==>
      (Raise in r.state.active <==> ev.pressed) &&
      TriLayerHolds(r.state) &&
      r.state.defaultLayer == s.defaultLayer &&
      forall m :: m != Raise && m != Adjust ==> (m in r.state.active <==> m in s.active)
  {
    match ev.keycode
    case QwertyKey =>
      Outcome(if ev.pressed then s.SetSinglePersistentDefaultLayer(Qwerty) else s, false)
    case LowerKey =>
      var t := if ev.pressed then s.LayerOn(Lower) else s.LayerOff(Lower);
      Outcome(t.UpdateTriLayer(Lower, Raise, Adjust), false)
    case RaiseKey =>
      var t := if ev.pressed then s.LayerOn(Raise) else s.LayerOff(Raise);
      Outcome(t.UpdateTriLayer(Lower, Raise, Adjust), false)
    case _ =>
      Outcome(s, true)
  }

  /** The state the handler leaves after a sequence of events, handled one at
      a time. Only the handler's own updates are applied: the framework's
      action for a key the handler passes through (such as `MO(_NM)` turning
      `_NM` on) is not part of this model. */
  function Run(s: LayerState, evs: seq<Event>): (r: LayerState)
    // The handler only ever moves the default layer to the base layer.
    ensures r.defaultLayer == s.defaultLayer || r.defaultLayer == Qwerty
    // The handler itself never touches a layer other than LOWER, RAISE and ADJUST.
    ensures forall m :: m != Lower && m != Raise && m != Adjust ==> (m in r.active <==> m in s.active)
    // The tri-layer rule, once it holds, holds for good.
    ensures TriLayerHolds(s) ==> TriLayerHolds(r)
    decreases |evs|
  {
    if evs == [] then s else Run(Handle(s, evs[0]).state, evs[1..])
  }

  /** Whether key `k` is held after `evs`: what its last event in `evs` said,
      or `held` when `evs` has no event for `k`. */
  function HeldAfter(evs: seq<Event>, k: Keycode, held: bool): bool
    decreases |evs|
  {
    if evs == [] then held
    else HeldAfter(evs[1..], k, if evs[0].keycode == k then evs[0].pressed else held)
  }

  /** LOWER and RAISE are active exactly while their keys are held: after any
      sequence of events, each layer is on if and only if the last event of its
      key was a press (or, if its key had no event, if it was on before). */
  lemma {:induction false} LayersFollowKeys(s: LayerState, evs: seq<Event>)
    ensures Lower in Run(s, evs).active <==> HeldAfter(evs, LowerKey, Lower in s.active)
    ensures Raise in Run(s, evs).active <==> HeldAfter(evs, RaiseKey, Raise in s.active)
    decreases |evs|
  {
    if evs != [] {
      LayersFollowKeys(Handle(s, evs[0]).state, evs[1..]);
    }
  }

  /** From power-on (no active layer) the tri-layer rule holds after any
      sequence of events, so the lemmas that require it cover every state the
      handler can reach. */
  lemma PowerOnObeysTriLayer(stored: Layer, evs: seq<Event>)
    ensures TriLayerHolds(Run(LayerState({}, stored), evs))
  {
  }

  /** ADJUST is active exactly while both LOWER and RAISE are held, in
      whichever order they were pressed. */
  lemma AdjustWhileBothHeld(s: LayerState, evs: seq<Event>)
    requires TriLayerHolds(s)
    ensures Adjust in Run(s, evs).active <==>
      HeldAfter(evs, LowerKey, Lower in s.active) && HeldAfter(evs, RaiseKey, Raise in s.active)
  {
    LayersFollowKeys(s, evs);
  }

  /** Pressing LOWER then RAISE or RAISE then LOWER gives the same state, with
      ADJUST on. */
  lemma ChordInEitherOrder(s: LayerState)
    ensures Run(s, [Event(LowerKey, true), Event(RaiseKey, true)]) ==
            Run(s, [Event(RaiseKey, true), Event(LowerKey, true)])
    ensures Adjust in Run(s, [Event(LowerKey, true), Event(RaiseKey, true)]).active
  {
    var lr := [Event(LowerKey, true), Event(RaiseKey, true)];
    var rl := [Event(RaiseKey, true), Event(LowerKey, true)];
    assert lr[1..] == [Event(RaiseKey, true)] && rl[1..] == [Event(LowerKey, true)];
    var a := Run(s, lr);
    var b := Run(s, rl);
    assert a.active == s.active + {Lower, Raise, Adjust};
    assert b.active == s.active + {Lower, Raise, Adjust};
  }

  /** Releasing either key of a held LOWER+RAISE chord turns ADJUST off and
      leaves the other layer on. */
  lemma ReleasingEitherEndsAdjust(s: LayerState, k: Keycode)
    requires Lower in s.active && Raise in s.active
    requires k == LowerKey || k == RaiseKey
    ensures Adjust !in Handle(s, Event(k, false)).state.active
    ensures k == LowerKey ==> Raise in Handle(s, Event(k, false)).state.active
    ensures k == RaiseKey ==> Lower in Handle(s, Event(k, false)).state.active
  {
  }

  /** Releasing LOWER or RAISE without a prior press, from a state that obeys the
      tri-layer rule, changes nothing. */
  lemma ReleaseWithoutPressIsNoOp(s: LayerState, k: Keycode)
    requires TriLayerHolds(s)
    requires (k == LowerKey && Lower !in s.active) || (k == RaiseKey && Raise !in s.active)
    ensures Handle(s, Event(k, false)) == Outcome(s, false)
  {
    var t := Handle(s, Event(k, false)).state;
    assert t.active == s.active;
  }

  /** Starting from the base layer as default, the LOWER, RAISE and MO(_NM)
      keys are reachable after any sequence of events: whatever layers are on,
      the table lookup still yields them, so every release reaches the handler. */
  lemma LayerKeysAlwaysReachable(s: LayerState, evs: seq<Event>)
    requires s.defaultLayer == Qwerty
    ensures Resolve(Run(s, evs).Visible(), 3, 4) == LowerKey
    ensures Resolve(Run(s, evs).Visible(), 3, 7) == RaiseKey
    ensures Resolve(Run(s, evs).Visible(), 3, 1) == MO(Nm)
  {
    var on := Run(s, evs).Visible();
    LowerKeyNotShadowed(on);
    RaiseKeyNotShadowed(on);
    NumKeyNotShadowed(on);
  }

  /** The keyboard's layer state as the framework holds it, updated in place. */
  class Keyboard {
    var active: set<Layer>
    var defaultLayer: Layer

    function State(): LayerState
      reads this
    {
      LayerState(active, defaultLayer)
    }

    /** Power-on: no momentary layer is on; the default layer is whatever was
        read back from EEPROM. */
    constructor (stored: Layer)
      ensures State() == LayerState({}, stored)
    {
      active := {};
      defaultLayer := stored;
    }

    method LayerOn(l: Layer)
      modifies this
      ensures State() == old(State()).LayerOn(l)
    {
      active := active + {l};
    }

    method LayerOff(l: Layer)
      modifies this
      ensures State() == old(State()).LayerOff(l)
    {
      active := active - {l};
    }

    method UpdateTriLayer(a: Layer, b: Layer, c: Layer)
      modifies this
      ensures State() == old(State()).UpdateTriLayer(a, b, c)
    {
      if a in active && b in active {
        LayerOn(c);
      } else {
        LayerOff(c);
      }
    }

    method SetSinglePersistentDefaultLayer(l: Layer)
      modifies this
      ensures State() == old(State()).SetSinglePersistentDefaultLayer(l)
    {
      defaultLayer := l;
    }

    /** `process_record_user(keycode, record)`, with `record->event.pressed`
        passed as `pressed`. */
    method ProcessRecordUser(keycode: Keycode, pressed: bool) returns (passThrough: bool)
      modifies this
      ensures Outcome(State(), passThrough) == Handle(old(State()), Event(keycode, pressed))
    {
      match keycode
      case QwertyKey =>
        if pressed {
          SetSinglePersistentDefaultLayer(Qwerty);
        }
        return false;
      case LowerKey =>
        if pressed {
          LayerOn(Lower);
          UpdateTriLayer(Lower, Raise, Adjust);
        } else {
          LayerOff(Lower);
          UpdateTriLayer(Lower, Raise, Adjust);
        }
        return false;
      case RaiseKey =>
        if pressed {
          LayerOn(Raise);
          UpdateTriLayer(Lower, Raise, Adjust);
        } else {
          LayerOff(Raise);
          UpdateTriLayer(Lower, Raise, Adjust);
        }
        return false;
      case _ =>
        return true;
    }
  }
}
