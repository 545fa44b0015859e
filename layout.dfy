/** The constant layout table `keymaps` of the Planck "wow" keymap: for each
    layer, four rows of twelve keycodes.
 */
module Layout {
  import opened Keycodes

  const Rows: nat := 4
  const Cols: nat := 12

  type Row = r: nat | r < Rows
  type Col = c: nat | c < Cols

  /** The rows of one layer, as written in the table. */
  function Grid(l: Layer): (g: seq<seq<Keycode>>)
    ensures |g| == Rows
    ensures forall r :: 0 <= r < |g| ==> |g[r]| == Cols
  {
    match l
    case Qwerty => [
      [KC(Tab),  KC(Q),  KC(W),    KC(E),    KC(R),    KC(T),   KC(Y),   KC(U),    KC(I),    KC(O),    KC(P),    KC(Bspc)],
      [KC(Esc),  KC(A),  KC(S),    KC(D),    KC(F),    KC(G),   KC(H),   KC(J),    KC(K),    KC(L),    KC(Scln), KC(Quot)],
      [KC(Lsft), KC(Z),  KC(X),    KC(C),    KC(V),    KC(B),   KC(N),   KC(M),    KC(Comm), KC(Dot),  KC(Slsh), KC(Ent)],
      [KC(Lctl), MO(Nm), KC(Lalt), KC(Lgui), LowerKey, KC(Spc), KC(Spc), RaiseKey, KC(Left), KC(Down), KC(Up),   KC(Rght)]
    ]
    case Nm => [
      [Trns, Trns,   Trns,   Trns,   Trns,    Trns,    Trns,    KC(Tab),  KC(N7), KC(N8), KC(N9),  KC(Bspc)],
      [Trns, KC(F1), KC(F2), KC(F3), KC(F4),  KC(F5),  KC(F6),  KC(Slsh), KC(N4), KC(N5), KC(N6),  KC(Mins)],
      [Trns, KC(F7), KC(F8), KC(F9), KC(F10), KC(F11), KC(F12), KC(Astr), KC(N1), KC(N2), KC(N3),  KC(Plus)],
      [Trns, MO(Nm), Trns,   Trns,   Trns,    Trns,    Trns,    Trns,     KC(N0), KC(N0), KC(Dot), KC(Ent)]
    ]
    case Lower => [
      [KC(Tild), Trns,    KC(MsU),  Trns,     Trns,     Trns, Trns, KC(Btn1), KC(Btn3),      KC(Btn2),     Trns,          KC(Bspc)],
      [Trns,     KC(MsL), KC(MsD),  KC(MsR),  KC(Plus), Trns, Trns, KC(Mins), KC(Eql),       Trns,         Trns,          KC(Bsls)],
      [Trns,     Trns,    KC(Lbrc), KC(Rbrc), Trns,     Trns, Trns, Trns,     Shifted(Comm), Shifted(Dot), Shifted(Slsh), Trns],
      [Trns,     Trns,    Trns,     Trns,     Trns,     Trns, Trns, Trns,     KC(Mnxt),      KC(Vold),     KC(Volu),      KC(Mply)]
    ]
    case Raise => [
      [KC(Grv), Trns,   Trns,     Trns,     Trns,   Trns,   Trns,   Trns,   Trns,     Trns,     Trns,     KC(Bspc)],
      [Trns,    KC(N1), KC(N2),   KC(N3),   KC(N4), KC(N5), KC(N6), KC(N7), KC(N8),   KC(N9),   KC(N0),   KC(Pipe)],
      [Trns,    Trns,   KC(Lcbr), KC(Rcbr), Trns,   Trns,   Trns,   Trns,   KC(Lprn), KC(Rprn), Trns,     Trns],
      [Trns,    Trns,   Trns,     Trns,     Trns,   Trns,   Trns,   Trns,   KC(Mnxt), KC(Vold), KC(Volu), KC(Mply)]
    ]
    case Adjust => [
      [Trns, Reset, Debug, Trns,     Trns,     Trns,    Trns,     KC(Pgup), Trns,   Trns,     Trns, KC(Del)],
      [Trns, Trns,  Trns,  KC(Pgdn), KC(Home), KC(End), KC(Left), KC(Down), KC(Up), KC(Rght), Trns, Trns],
      [Trns, Trns,  Trns,  Trns,     Trns,     Trns,    Trns,     Trns,     Trns,   Trns,     Trns, Trns],
      [Trns, Trns,  Trns,  Trns,     Trns,     Trns,    Trns,     Trns,     Trns,   Trns,     Trns, Trns]
    ]
  }

  /** `keymaps[layer][row][col]`: defined for every layer, row and column. */
  function Keymap(l: Layer, row: Row, col: Col): Keycode
  {
    Grid(l)[row][col]
  }

  datatype Option<T> = None | Some(value: T)

  /** The table indexed by plain numbers, as the firmware indexes it: a cell
      exists exactly for layer < 5, row < 4 and column < 12, and the entry at
      number `LayerIndex(l)` is the one written under `[l] = {...}`. */
  function Lookup(layer: nat, row: nat, col: nat): (r: Option<Keycode>)
    ensures r.Some? <==> layer < LayerCount && row < Rows && col < Cols
    ensures forall l: Layer :: layer == LayerIndex(l) && row < Rows && col < Cols ==> r == Some(Keymap(l, row, col))
  {
    if layer < LayerCount && row < Rows && col < Cols
    then Some(Keymap(LayerFromIndex(layer), row, col))
    else None
  }

  /** Every cell of the base layer is a concrete keycode. */
  lemma BaseLayerOpaque(row: Row, col: Col)
    ensures Keymap(Qwerty, row, col) != Trns
  {
  }

  /** Where the layer keys sit: LOWER at (3,4), RAISE at (3,7) and MO(_NM) at
      (3,1) of the base layer; the numeric layer repeats MO(_NM) at (3,1). */
  lemma LayerKeyPositions()
    ensures Keymap(Qwerty, 3, 4) == LowerKey
    ensures Keymap(Qwerty, 3, 7) == RaiseKey
    ensures Keymap(Qwerty, 3, 1) == MO(Nm)
    ensures Keymap(Nm, 3, 1) == MO(Nm)
  {
  }

  /** LOWER occupies exactly one cell of the whole table. */
  lemma LowerKeyUnique(l: Layer, row: Row, col: Col)
    ensures Keymap(l, row, col) == LowerKey <==> l == Qwerty && row == 3 && col == 4
  {
    if l != Qwerty || row != 3 {
      match l
      case Qwerty => assert LowerKey !in Grid(Qwerty)[row];
      case Nm => assert LowerKey !in Grid(Nm)[row];
      case Lower => assert LowerKey !in Grid(Lower)[row];
      case Raise => assert LowerKey !in Grid(Raise)[row];
      case Adjust => assert LowerKey !in Grid(Adjust)[row];
    }
  }

  /** RAISE occupies exactly one cell of the whole table. */
  lemma RaiseKeyUnique(l: Layer, row: Row, col: Col)
    ensures Keymap(l, row, col) == RaiseKey <==> l == Qwerty && row == 3 && col == 7
  {
    if l != Qwerty || row != 3 {
      match l
      case Qwerty => assert RaiseKey !in Grid(Qwerty)[row];
      case Nm => assert RaiseKey !in Grid(Nm)[row];
      case Lower => assert RaiseKey !in Grid(Lower)[row];
      case Raise => assert RaiseKey !in Grid(Raise)[row];
      case Adjust => assert RaiseKey !in Grid(Adjust)[row];
    }
  }

  /** No cell of the table holds the custom QWERTY keycode. */
  lemma QwertyKeyUnbound(l: Layer, row: Row, col: Col)
    ensures Keymap(l, row, col) != QwertyKey
  {
    match l
    case Qwerty => assert QwertyKey !in Grid(Qwerty)[row];
    case Nm => assert QwertyKey !in Grid(Nm)[row];
    case Lower => assert QwertyKey !in Grid(Lower)[row];
    case Raise => assert QwertyKey !in Grid(Raise)[row];
    case Adjust => assert QwertyKey !in Grid(Adjust)[row];
  }

  /** Above the base layer, the cells under LOWER and RAISE are transparent, and
      so is the cell under MO(_NM) on every layer other than the two that hold it. */
  lemma LayerKeysTransparentAbove(l: Layer)
    ensures l != Qwerty ==> Keymap(l, 3, 4) == Trns && Keymap(l, 3, 7) == Trns
    ensures l != Qwerty && l != Nm ==> Keymap(l, 3, 1) == Trns
  {
  }

  /** The keycodes of one position on every layer, indexed by layer number. */
  function Stack(row: Row, col: Col): (s: seq<Keycode>)
    ensures |s| == LayerCount
    ensures forall l :: s[LayerIndex(l)] == Keymap(l, row, col)
  {
    [Keymap(Qwerty, row, col), Keymap(Nm, row, col), Keymap(Lower, row, col),
     Keymap(Raise, row, col), Keymap(Adjust, row, col)]
  }

  /** The framework's lookup across layers (not part of this keymap): among the
      layers in `on` numbered below `n`, the highest one whose keycode in `cells`
      is not transparent supplies the keycode; if there is none the key does
      nothing, which is `Trns` here. */
  function ResolveFrom(n: nat, on: set<Layer>, cells: seq<Keycode>): (r: Keycode)
    requires n <= |cells| == LayerCount
    ensures r == Trns || exists i :: 0 <= i < n && LayerFromIndex(i) in on && cells[i] == r
    decreases n
  {
    if n == 0 then Trns
    else if LayerFromIndex(n - 1) in on && cells[n - 1] != Trns then cells[n - 1]
    else ResolveFrom(n - 1, on, cells)
  }

  /** The keycode of a position when the layers in `on` are active. */
  function Resolve(on: set<Layer>, row: Row, col: Col): (r: Keycode)
    ensures r == Trns || exists l :: l in on && Keymap(l, row, col) == r
  {
    var r := ResolveFrom(LayerCount, on, Stack(row, col));
    assert r != Trns ==> exists i :: 0 <= i < LayerCount && LayerFromIndex(i) in on && Stack(row, col)[i] == r;
    r
  }

  /** The lookup picks layer `i` when it is active with a keycode that is not
      transparent and every active layer above it, up to `n`, is transparent. */
  lemma {:induction false} ResolvesToTopmostOpaque(n: nat, on: set<Layer>, cells: seq<Keycode>, i: nat)
    requires n <= |cells| == LayerCount && i < n
    requires LayerFromIndex(i) in on && cells[i] != Trns
    requires forall j :: i < j < n && LayerFromIndex(j) in on ==> cells[j] == Trns
    ensures ResolveFrom(n, on, cells) == cells[i]
    decreases n
  {
    if i < n - 1 {
      ResolvesToTopmostOpaque(n - 1, on, cells, i);
    }
  }

  /** The lookup yields a real keycode whenever some active layer up to `n` has one. */
  lemma {:induction false} ResolveFindsOpaque(n: nat, on: set<Layer>, cells: seq<Keycode>, i: nat)
    requires n <= |cells| == LayerCount && i < n
    requires LayerFromIndex(i) in on && cells[i] != Trns
    ensures ResolveFrom(n, on, cells) != Trns
    decreases n
  {
    if i < n - 1 {
      ResolveFindsOpaque(n - 1, on, cells, i);
    }
  }

  /** With the base layer active, every position produces a real keycode. */
  lemma ResolveOverBaseOpaque(on: set<Layer>, row: Row, col: Col)
    requires Qwerty in on
    ensures Resolve(on, row, col) != Trns
  {
    BaseLayerOpaque(row, col);
    ResolveFindsOpaque(LayerCount, on, Stack(row, col), 0);
  }

  /** While the base layer is active, the key that holds LOWER keeps producing
      LOWER whatever else is active, so its release always reaches the handler. */
  lemma LowerKeyNotShadowed(on: set<Layer>)
    requires Qwerty in on
    ensures Resolve(on, 3, 4) == LowerKey
  {
    ResolvesToTopmostOpaque(LayerCount, on, Stack(3, 4), 0);
  }

  /** The same for the key that holds RAISE. */
  lemma RaiseKeyNotShadowed(on: set<Layer>)
    requires Qwerty in on
    ensures Resolve(on, 3, 7) == RaiseKey
  {
    ResolvesToTopmostOpaque(LayerCount, on, Stack(3, 7), 0);
  }

  /** The key that holds the numeric layer produces MO(_NM) whether or not that
      layer is already on, because the numeric layer repeats it at (3,1). */
  lemma NumKeyNotShadowed(on: set<Layer>)
    requires Qwerty in on
    ensures Resolve(on, 3, 1) == MO(Nm)
  {
    assert Keymap(Qwerty, 3, 1) == Keymap(Nm, 3, 1) == MO(Nm);
    assert Keymap(Lower, 3, 1) == Keymap(Raise, 3, 1) == Keymap(Adjust, 3, 1) == Trns;
    if Nm in on {
      ResolvesToTopmostOpaque(LayerCount, on, Stack(3, 1), 1);
    } else {
      ResolvesToTopmostOpaque(LayerCount, on, Stack(3, 1), 0);
    }
  }
}
