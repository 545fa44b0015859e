/** Layers and keycodes of the Planck "wow" keymap.

    The firmware gives every keycode a 16-bit number; this model keeps them
    symbolic. The only facts the handler relies on are that the three custom
    codes differ from each other and from every standard code, which distinct
    datatype constructors give for free.
 */
module Keycodes {

  /** The five layers, in the order of the `planck_layers` enum. */
  datatype Layer = Qwerty | Nm | Lower | Raise | Adjust

  const LayerCount: nat := 5

  /** The enum value of a layer; a higher index takes precedence. */
  function LayerIndex(l: Layer): (n: nat)
    ensures n < LayerCount
  {
    match l
    case Qwerty => 0
    case Nm => 1
    case Lower => 2
    case Raise => 3
    case Adjust => 4
  }

  /** The layer an enum value names; every value below the count names one. */
  function LayerFromIndex(n: nat): (l: Layer)
    requires n < LayerCount
    ensures LayerIndex(l) == n
  {
    if n == 0 then Qwerty
    else if n == 1 then Nm
    else if n == 2 then Lower
    else if n == 3 then Raise
    else Adjust
  }

  /** The standard (HID) keys the table names, one constructor per `KC_` code.
      `KC_RIGHT` is the framework's alias of `KC_RGHT` and is `Rght` here. */
  datatype Key =
    | A | B | C | D | E | F | G | H | I | J | K | L | M
    | N | O | P | Q | R | S | T | U | V | W | X | Y | Z
    | N0 | N1 | N2 | N3 | N4 | N5 | N6 | N7 | N8 | N9
    | F1 | F2 | F3 | F4 | F5 | F6 | F7 | F8 | F9 | F10 | F11 | F12
    | Tab | Bspc | Esc | Ent | Spc | Del
    | Lsft | Lctl | Lalt | Lgui
    | Scln | Quot | Comm | Dot | Slsh | Mins | Eql | Bsls | Lbrc | Rbrc | Grv
    | Tild | Pipe | Lcbr | Rcbr | Lprn | Rprn | Astr | Plus
    | Left | Down | Up | Rght | Pgup | Pgdn | Home | End
    | MsU | MsD | MsL | MsR | Btn1 | Btn2 | Btn3
    | Mnxt | Vold | Volu | Mply

  /** A cell of the layout table, or a keycode handed to the event handler. */
  datatype Keycode =
    | Trns               // `_______`: fall through to the next active layer
    | KC(key: Key)       // a standard key
    | Shifted(key: Key)  // `S(k)`: the key with Shift held
    | MO(layer: Layer)   // momentarily turn a layer on while held
    | Reset              // jump to the bootloader
    | Debug              // toggle debug output
    | QwertyKey          // custom `QWERTY`
    | LowerKey           // custom `LOWER`
    | RaiseKey           // custom `RAISE`

  /** The keycodes of the `planck_keycodes` enum, which this keymap handles itself. */
  predicate IsCustom(k: Keycode)
  {
    k.QwertyKey? || k.LowerKey? || k.RaiseKey?
  }

  /** Layer numbering is a bijection between the layers and 0..4. */
  lemma LayerIndexRoundTrip(l: Layer)
    ensures LayerFromIndex(LayerIndex(l)) == l
  {
  }
}
