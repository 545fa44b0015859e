# Planck "wow" keymap: layout table and layer-switching handler

This project models the keymap `keyboards/planck/keymaps/wow/keymap.c`. The keymap belongs to QMK, the keyboard firmware, and is written for a Planck keyboard: 4 rows × 12 columns.

The keymap has two parts:

- **The layout table `keymaps`.** It has five layers: `_QWERTY`, `_NM`, `_LOWER`, `_RAISE` and `_ADJUST`, numbered 0 to 4. Each layer holds four rows of twelve keycodes. A keycode is one of these:
  - a standard key (`KC_…`);
  - a shifted key (`S(k)`);
  - a momentary layer key (`MO(layer)`);
  - the transparent marker `_______`;
  - the framework codes `RESET` and `DEBUG`;
  - one of the keymap's three custom codes `QWERTY`, `LOWER` and `RAISE`.
- **The event handler `process_record_user`.** The framework calls it on every key transition.
  - `LOWER` and `RAISE` turn their own layer on when pressed and off when released. Each then re-derives `_ADJUST` with the tri-layer rule: ADJUST is on exactly when LOWER and RAISE both are.
  - Pressing `QWERTY` makes `_QWERTY` the persistent default layer.
  - The handler returns `false` ("handled") for those three codes and `true` for every other code.

## Modules

- `keycodes.dfy`, module `Keycodes`:
  - the layer enum and its numbering;
  - the symbolic keycode datatype. Each `KC_` code is a constructor of `Key`. `_______` is `Trns`. `S(k)`, `MO(l)`, `RESET`, `DEBUG` and the custom codes each have their own constructor.
- `layout.dfy`, module `Layout`:
  - the table as a constant function `Keymap(layer, row, col)`, and its numeric-index view `Lookup`;
  - facts about where the layer keys sit.
  - It also holds the lookup across the active layers. That lookup belongs to the framework, not to this keymap. It is written out as `Resolve`, under the usual rule: the highest active layer whose cell is not transparent decides. It is used only to show that the keys holding a layer are never hidden by the layer they turn on.
- `handler.dfy`, module `Handler`:
  - the state `LayerState`: the set of active layers plus the default layer;
  - the framework primitives `layer_on`, `layer_off`, `update_tri_layer` and `set_single_persistent_default_layer`, as functions with their documented meaning;
  - `Handle`: the handler as a function of the state before the event;
  - `Run`: the state the handler leaves after a sequence of events, applying only the handler's own updates;
  - a class `Keyboard` whose `active` and `defaultLayer` fields the primitive methods and `ProcessRecordUser` update in place. That method is proved equal to `Handle`.

Notes on the source:

- The ASCII diagrams above each layer do not always match the code. For example, the `_LOWER` diagram shows W/A/S/D where the code has mouse keys. The model follows the code.
- `KC_RIGHT` in the `_ADJUST` layer is the framework's alias of `KC_RGHT`, so both are modelled as `Rght`.
- No cell of the table holds the custom `QWERTY` code (`QwertyKeyUnbound`). The handler's `QWERTY` branch can therefore only be reached by a keycode sent from outside this layout.
- The handler's switch has three live cases. The `NUM_PAD` case is commented out.

## Model

| member | source | states |
|---|---|---|
| Keycodes.LayerIndex | keyboards/planck/keymaps/wow/keymap.c:22-28 | every layer's enum value is below the layer count 5 |
| Keycodes.LayerFromIndex | keyboards/planck/keymaps/wow/keymap.c:22-28 | every number below 5 names a layer whose enum value is that number |
| Keycodes.LayerIndexRoundTrip | keyboards/planck/keymaps/wow/keymap.c:22-28 | numbering a layer and reading the number back gives the same layer, so the numbering is a bijection |
| Layout.Grid | keyboards/planck/keymaps/wow/keymap.c:36-128 | the table is total: every layer has exactly 4 rows of exactly 12 keycodes |
| Layout.Keymap | keyboards/planck/keymaps/wow/keymap.c:36-128 | `keymaps[l][row][col]`: the cell of layer `l` at (row, col); total, because `Row` and `Col` are the subset types row < 4 and col < 12 and `Grid` guarantees the 4×12 shape |
| Layout.Lookup | keyboards/planck/keymaps/wow/keymap.c:22-128 | a numerically indexed cell exists exactly when layer < 5, row < 4 and column < 12; the entry at number `LayerIndex(l)` is the cell written under `[l] = {...}` for that layer |
| Layout.BaseLayerOpaque | keyboards/planck/keymaps/wow/keymap.c:49-54 | no cell of the base layer is transparent |
| Layout.LayerKeyPositions | keyboards/planck/keymaps/wow/keymap.c:49-72 | LOWER is at (3,4), RAISE at (3,7) and MO(_NM) at (3,1) on the base layer; the numeric layer repeats MO(_NM) at (3,1) |
| Layout.LowerKeyUnique | keyboards/planck/keymaps/wow/keymap.c:36-128 | a cell holds LOWER if and only if it is the base layer's (3,4) |
| Layout.RaiseKeyUnique | keyboards/planck/keymaps/wow/keymap.c:36-128 | a cell holds RAISE if and only if it is the base layer's (3,7) |
| Layout.QwertyKeyUnbound | keyboards/planck/keymaps/wow/keymap.c:30-128 | no cell of any layer holds the custom QWERTY code |
| Layout.LayerKeysTransparentAbove | keyboards/planck/keymaps/wow/keymap.c:67-126 | above the base layer the cells under LOWER and RAISE are transparent; under MO(_NM) every layer except the base and numeric layers is transparent |
| Layout.Stack | keyboards/planck/keymaps/wow/keymap.c:36-128 | the column of one position across the five layers has one keycode per layer, the one the table gives it |
| Layout.ResolveFrom | keyboards/planck/keymaps/wow/keymap.c:36-128 | the cross-layer lookup (framework rule) yields either nothing or the keycode of some active layer at that position |
| Layout.Resolve | keyboards/planck/keymaps/wow/keymap.c:36-128 | over the whole table, the lookup yields nothing or a keycode that some active layer holds at that position |
| Layout.ResolvesToTopmostOpaque | keyboards/planck/keymaps/wow/keymap.c:36-128 | the lookup picks an active layer's keycode when that keycode is not transparent and every active layer above it is transparent there |
| Layout.ResolveFindsOpaque | keyboards/planck/keymaps/wow/keymap.c:36-128 | the lookup yields a real keycode whenever some active layer holds one at that position |
| Layout.ResolveOverBaseOpaque | keyboards/planck/keymaps/wow/keymap.c:49-54 | with the base layer active, no position is a no-op |
| Layout.LowerKeyNotShadowed | keyboards/planck/keymaps/wow/keymap.c:53 | with the base layer active, (3,4) yields LOWER whatever other layers are on |
| Layout.RaiseKeyNotShadowed | keyboards/planck/keymaps/wow/keymap.c:53 | with the base layer active, (3,7) yields RAISE whatever other layers are on |
| Layout.NumKeyNotShadowed | keyboards/planck/keymaps/wow/keymap.c:53-71 | with the base layer active, (3,1) yields MO(_NM) whether or not the numeric layer is on |
| Handler.LayerState.LayerOn | keyboards/planck/keymaps/wow/keymap.c:147 | `layer_on`: the layer becomes active, every other layer and the default layer keep their state |
| Handler.LayerState.LayerOff | keyboards/planck/keymaps/wow/keymap.c:150 | `layer_off`: the layer becomes inactive, every other layer and the default layer keep their state |
| Handler.LayerState.UpdateTriLayer | keyboards/planck/keymaps/wow/keymap.c:148 | `update_tri_layer(a, b, c)`: c ends up active if and only if a and b are both active; no other layer and not the default changes |
| Handler.LayerState.SetSinglePersistentDefaultLayer | keyboards/planck/keymaps/wow/keymap.c:135 | the default layer becomes the given layer; the active layers are untouched |
| Handler.LayerState.Visible | keyboards/planck/keymaps/wow/keymap.c:36-128 | the framework's consulted set `layer_state \| default_layer_state` (not part of this file): a layer is consulted exactly when it is the default layer or active |
| Handler.Handle | keyboards/planck/keymaps/wow/keymap.c:130-167 | returns false exactly for QWERTY, LOWER and RAISE (press and release) and true otherwise; other codes change nothing; QWERTY press sets the default to _QWERTY, release changes nothing, neither touches the active layers; after LOWER (RAISE) its layer is on iff pressed, ADJUST is on iff LOWER and RAISE both are, and no other layer nor the default changes |
| Handler.Run | keyboards/planck/keymaps/wow/keymap.c:130-167 | in the state the handler leaves after any event sequence: the default layer is unchanged or becomes _QWERTY; the handler leaves _QWERTY and _NM as they were; the tri-layer rule, once it holds, keeps holding |
| Handler.PowerOnObeysTriLayer | keyboards/planck/keymaps/wow/keymap.c:145-163 | from power-on with no active layer, the tri-layer rule holds after any event sequence, so lemmas requiring it cover every state the handler reaches |
| Handler.LayersFollowKeys | keyboards/planck/keymaps/wow/keymap.c:145-163 | after any event sequence, _LOWER (_RAISE) is active iff the last event of its key was a press, or it was active before when the key had no event |
| Handler.AdjustWhileBothHeld | keyboards/planck/keymaps/wow/keymap.c:145-163 | from a state obeying the tri-layer rule, after any event sequence ADJUST is active iff both LOWER and RAISE are held |
| Handler.ChordInEitherOrder | keyboards/planck/keymaps/wow/keymap.c:145-163 | pressing LOWER then RAISE gives the same state as RAISE then LOWER, with ADJUST on |
| Handler.ReleasingEitherEndsAdjust | keyboards/planck/keymaps/wow/keymap.c:145-163 | with LOWER and RAISE both held, releasing either turns ADJUST off and leaves the other layer on |
| Handler.ReleaseWithoutPressIsNoOp | keyboards/planck/keymaps/wow/keymap.c:145-163 | releasing LOWER or RAISE when its layer is off, in a state obeying the tri-layer rule, leaves the state unchanged and returns false |
| Handler.LayerKeysAlwaysReachable | keyboards/planck/keymaps/wow/keymap.c:49-167 | from the base layer as default, after any event sequence, (3,4), (3,7) and (3,1) still yield LOWER, RAISE and MO(_NM), so every release reaches the handler |
| Handler.Keyboard.LayerOn | keyboards/planck/keymaps/wow/keymap.c:147 | the in-place update of `layer_on` matches LayerState.LayerOn |
| Handler.Keyboard.LayerOff | keyboards/planck/keymaps/wow/keymap.c:150 | the in-place update of `layer_off` matches LayerState.LayerOff |
| Handler.Keyboard.UpdateTriLayer | keyboards/planck/keymaps/wow/keymap.c:148 | the in-place update of `update_tri_layer`, built from layer_on/layer_off, matches LayerState.UpdateTriLayer |
| Handler.Keyboard.SetSinglePersistentDefaultLayer | keyboards/planck/keymaps/wow/keymap.c:135 | the in-place update of the default layer matches LayerState.SetSinglePersistentDefaultLayer |
| Handler.Keyboard.ProcessRecordUser | keyboards/planck/keymaps/wow/keymap.c:130-167 | the imperative handler leaves the fields in the state Handle gives and returns Handle's return value, so every property of Handle holds of it |

## Left out

- The `print` of a diagnostic message on a QWERTY press: output with no effect on the layer state.
- EEPROM: the model keeps only the resulting default layer, not how `set_single_persistent_default_layer` stores it. The audio hook that function may play is also left out.
- What the framework does for `MO(_NM)`, `RESET` and `DEBUG`: that code is outside this file. The handler passes these codes through, and the model shows that.
- The framework's lookup across layers is not part of this keymap. `Resolve` is an assumed rendering of it, and no claim is made that it is the firmware's code. Two details differ from that code. It does not model layer numbers above 4. When no layer supplies a keycode it yields `Trns` (a no-op) instead of falling back to layer 0. These two agree here whenever the base layer is active, because that layer has no transparent cells.
- The commented-out `NUM_PAD` case and the near-duplicate keymap variant with a numeric default layer: dead code, and the variant file is not part of this model.
- Numeric keycode values, `SAFE_RANGE` and `PROGMEM`: keycodes are symbolic constructors. They are distinct by construction, which is all the handler relies on.
- The `keyrecord_t` fields other than `event.pressed` (key position, time): the handler does not read them.
- The matrix scanning, debouncing and USB reporting that surround the keymap.
- Visible: which layers the framework consults, `layer_state | default_layer_state`, is the framework's rule and is not in this file. The model writes it as the default layer plus the active layers.
- Run: applies only the handler's updates. The framework's own action for a key the handler passes through is left out. For example, `MO(_NM)` turning `_NM` on is not modelled. So Run's facts about `_NM` hold of the handler's part only.
- Power-on comes from the framework, not this file. `Keyboard`'s constructor stands in for it: no active layer, and a default layer passed in as the value stored in EEPROM.
