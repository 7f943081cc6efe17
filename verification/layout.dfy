/** The keyboard's static layout: five rows of key descriptors
    (src/components/Keyboard.tsx:6-90). */
module Layout {
  import opened Options
  import opened Ascii

  datatype Side = Left | Right

  /** The named control functions an action key may carry. */
  datatype Action = Backspace | Tab | CapsLock | Enter | Shift | Ctrl | Alt

  /** A key is either a character key (a base text and an optional shifted
      text) or an action key (an action and an optional side). The source's
      `icon` field is presentation only and is not modelled. */
  datatype Key =
    | BaseKey(base: string, shifted: Option<string>)
    | ActionKey(action: Action, side: Option<Side>)

  /** The string each action is written as, which is what the layout hands to
      the key router. */
  function ActionName(a: Action): (r: string) {
    match a
    case Backspace => "Backspace"
    case Tab => "Tab"
    case CapsLock => "Caps Lock"
    case Enter => "Enter"
    case Shift => "Shift"
    case Ctrl => "Ctrl"
    case Alt => "Alt"
  }

  /** A character key without a shifted form, written as its one character. */
  function Char(base: char): (k: Key)
    requires ' ' <= base <= '~' && !IsUpperChar(base)
    ensures WellFormed(k)
  {
    BaseKey([base], None)
  }

  /** A character key with a shifted form; neither of its characters is a
      letter. */
  function Pair(base: char, shifted: char): (k: Key)
    requires ' ' <= base <= '~' && ' ' <= shifted <= '~'
    requires !IsLowerChar(base) && !IsUpperChar(base)
    ensures WellFormed(k)
  {
    BaseKey([base], Some([shifted]))
  }

  const ROW1: seq<Key> := [
    Pair('`', '~'), Pair('1', '!'), Pair('2', '@'), Pair('3', '#'),
    Pair('4', '$'), Pair('5', '%'), Pair('6', '^'), Pair('7', '&'),
    Pair('8', '*'), Pair('9', '('), Pair('0', ')'), Pair('-', '_'),
    Pair('=', '+'), ActionKey(Backspace, None)]

  const ROW2: seq<Key> := [
    ActionKey(Tab, None),
    Char('q'), Char('w'), Char('e'), Char('r'), Char('t'),
    Char('y'), Char('u'), Char('i'), Char('o'), Char('p'),
    Pair('[', '{'), Pair(']', '}'), Pair('\\', '|')]

  const ROW3: seq<Key> := [
    ActionKey(CapsLock, None),
    Char('a'), Char('s'), Char('d'), Char('f'), Char('g'),
    Char('h'), Char('j'), Char('k'), Char('l'),
    Pair(';', ':'), Pair('\'', '"'), ActionKey(Enter, None)]

  const ROW4: seq<Key> := [
    ActionKey(Shift, Some(Left)),
    Char('z'), Char('x'), Char('c'), Char('v'), Char('b'), Char('n'), Char('m'),
    Pair(',', '<'), Pair('.', '>'), Pair('/', '?'),
    ActionKey(Shift, Some(Right))]

  const ROW5: seq<Key> := [
    ActionKey(Ctrl, None), ActionKey(Alt, None), Char(' '),
    ActionKey(Alt, None), ActionKey(Ctrl, None)]

  const ROWS: seq<seq<Key>> := [ROW1, ROW2, ROW3, ROW4, ROW5]

  /** Every key that can be pressed, row by row, left to right. */
  const ALL_KEYS: seq<Key> := ROW1 + ROW2 + ROW3 + ROW4 + ROW5

  /** The characters a layout key can put into the text: printable ASCII
      (space included), newline and tab. */
  predicate Typeable(c: char) { ' ' <= c <= '~' || c == '\n' || c == '\t' }

  /** What holds of every key in the layout: a character key has exactly one
      base character and at most one shifted character, all of them printable;
      a letter key is lower-case and has no shifted form; an action key has a
      side exactly when it is a Shift key. */
  predicate WellFormed(k: Key) {
    match k
    case BaseKey(b, sh) =>
      |b| == 1 && ' ' <= b[0] <= '~' &&
      (sh.Some? ==> |sh.value| == 1 && ' ' <= sh.value[0] <= '~') &&
      (IsLowerChar(b[0]) || IsUpperChar(b[0]) ==> IsLowerChar(b[0]) && sh.None?)
    case ActionKey(a, side) => side.Some? <==> a == Shift
  }

  /** The action names are pairwise distinct, so the router can tell every
      action apart. */
  lemma ActionNamesDistinct(a: Action, b: Action)
    ensures ActionName(a) == ActionName(b) <==> a == b
  {
  }

  /** The layout has 58 keys in rows of 14, 14, 13, 12 and 5. */
  lemma LayoutShape()
    ensures |ROWS| == 5 && |ALL_KEYS| == 58
    ensures |ROW1| == 14 && |ROW2| == 14 && |ROW3| == 13 && |ROW4| == 12 && |ROW5| == 5
  {
  }

  predicate IsShiftKey(k: Key) { k.ActionKey? && k.action == Shift }

  /** Every key of each row is well formed (one lemma per row keeps each
      proof small). Only row 4 has Shift keys, and row 5's only character key
      is Space, which has no shifted form. */
  lemma Row1WellFormed()
    ensures forall k :: k in ROW1 ==> WellFormed(k) && !IsShiftKey(k)
    ensures forall k :: k in ROW1 && k.BaseKey? ==> k.shifted.Some?
  {
  }

  lemma Row2WellFormed()
    ensures forall k :: k in ROW2 ==> WellFormed(k) && !IsShiftKey(k)
  {
  }

  lemma Row3WellFormed()
    ensures forall k :: k in ROW3 ==> WellFormed(k) && !IsShiftKey(k)
  {
  }

  lemma Row4WellFormed()
    ensures forall k :: k in ROW4 ==> WellFormed(k)
  {
  }

  lemma Row5WellFormed()
    ensures forall k :: k in ROW5 ==> WellFormed(k) && !IsShiftKey(k)
    ensures forall k :: k in ROW5 && k.BaseKey? ==> k == BaseKey(" ", None)
  {
  }

  /** Every key of the layout is well formed. */
  lemma AllKeysWellFormed()
    ensures forall k :: k in ALL_KEYS ==> WellFormed(k)
  {
    Row1WellFormed();
    Row2WellFormed();
    Row3WellFormed();
    Row4WellFormed();
    Row5WellFormed();
  }

  /** The two Shift keys sit at the ends of row 4, left then right. */
  lemma ShiftKeysPlacement()
    ensures ROW4[0] == ActionKey(Shift, Some(Left)) && ROW4[|ROW4| - 1] == ActionKey(Shift, Some(Right))
  {
  }

  /** Only row 4 has Shift keys. */
  lemma NoShiftOutsideRow4(row: nat, k: Key)
    requires 1 <= row <= |ROWS| && row != 4 && k in ROWS[row - 1]
    ensures !IsShiftKey(k)
  {
    if row == 1 {
      Row1WellFormed();
    } else if row == 2 {
      Row2WellFormed();
    } else if row == 3 {
      Row3WellFormed();
    } else {
      Row5WellFormed();
    }
  }
}
