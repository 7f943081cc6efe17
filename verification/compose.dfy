/** The composition engine of the keyboard as pure functions on its session
    state (src/components/Keyboard.tsx:94-207 and the onClick handlers of the
    five rows). Each handler is an atomic update of the four state cells. */
module Compose {
  import opened Options
  import opened Ascii
  import opened Layout

  /** The four state cells: `inputText`, `isCaps`, `isShift` and
      `activeShiftSide`. */
  datatype State = State(text: string, caps: bool, shift: bool, side: Option<Side>)

  /** The widget starts with an empty text and every modifier off. */
  const INITIAL: State := State("", false, false, None)

  /** `before` is a prefix of `after`, which is longer by exactly the text `added`. */
  predicate Appends(before: string, after: string, added: string) {
    |after| == |before| + |added| && after[..|before|] == before && after[|before|..] == added
  }

  /** Two states whose Caps, Shift and Shift-side cells agree. */
  predicate SameModifiers(s: State, t: State) {
    s.caps == t.caps && s.shift == t.shift && s.side == t.side
  }

  /** The text a character key adds. A letter is upper-case when exactly one
      of Caps and Shift is on; any other key gives its shifted text when Shift
      is on and the shifted text is present and non-empty, and its base text
      otherwise. */
  function CharToAdd(base: string, shifted: Option<string>, caps: bool, shift: bool): (r: string) {
    if IsLetter(base) then
      var shouldUppercase := (caps && !shift) || (!caps && shift);
      if shouldUppercase then ToUpper(base) else ToLower(base)
    else if shift && shifted.Some? && shifted.value != "" then
      shifted.value
    else
      base
  }

  /** A character key appends its text; Shift is used up by it. */
  function CharacterKey(s: State, base: string, shifted: Option<string>): (r: State) {
    var text := s.text + CharToAdd(base, shifted, s.caps, s.shift);
    if s.shift then State(text, s.caps, false, None) else s.(text := text)
  }

  /** A Shift key flips Shift, and makes its side the active one unless it
      already was, in which case no side is active. */
  function ShiftKey(s: State, side: Side): (r: State) {
    s.(shift := !s.shift, side := if s.side == Some(side) then None else Some(side))
  }

  function SpaceKey(s: State): (r: State) { s.(text := s.text + " ") }

  function EnterKey(s: State): (r: State) { s.(text := s.text + "\n") }

  function TabKey(s: State): (r: State) { s.(text := s.text + "\t") }

  /** JavaScript's `text.slice(0, -1)`: a negative end counts from the end of
      the string and is clamped at 0. */
  function DropLast(text: string): (r: string) {
    var end := if |text| - 1 < 0 then 0 else |text| - 1;
    text[..end]
  }

  function BackspaceKey(s: State): (r: State) { s.(text := DropLast(s.text)) }

  function CapsLockKey(s: State): (r: State) { s.(caps := !s.caps) }

  /** The key router, on the string a key hands it. Ctrl, Alt, Delete, the
      arrow keys, "<" and ">" do nothing; any string it does not know is
      typed as a character key without a shifted form. */
  function KeyClick(s: State, key: string): (r: State) {
    if key == "Enter" then EnterKey(s)
    else if key == "Ctrl" || key == "Alt" || key == "Delete"
         || key == "ArrowUp" || key == "ArrowDown" || key == "ArrowLeft" || key == "ArrowRight"
         || key == "<" || key == ">" then s
    else if key == "Space" then SpaceKey(s)
    else if key == "Caps Lock" then CapsLockKey(s)
    else if key == "Tab" then TabKey(s)
    else if key == "Backspace" then BackspaceKey(s)
    else CharacterKey(s, key, None)
  }

  /** What clicking key `k` of row `row` (1 to 5) does. Rows 1 to 3 send every
      action key to the router; row 4 sends its Shift keys straight to the
      Shift handler (each of them has a side); row 5 types its character keys
      without a shifted form. */
  function Click(row: nat, s: State, k: Key): (r: State)
    requires 1 <= row <= |ROWS| && k in ROWS[row - 1]
  {
    match k
    case ActionKey(a, side) =>
      if row == 4 && a == Shift && side.Some? then ShiftKey(s, side.value)
      else KeyClick(s, ActionName(a))
    case BaseKey(b, sh) =>
      if row == 5 then CharacterKey(s, b, None) else CharacterKey(s, b, sh)
  }

  /** One dispatch by kind of key: character keys to the character handler,
      Shift keys with a side to the Shift handler, every other action key to
      the router by its name. */
  function Press(s: State, k: Key): (r: State) {
    match k
    case BaseKey(b, sh) => CharacterKey(s, b, sh)
    case ActionKey(a, side) =>
      if a == Shift && side.Some? then ShiftKey(s, side.value)
      else KeyClick(s, ActionName(a))
  }

  // ---------------------------------------------------------------------
  // What one key does

  /** A letter comes out as one letter of the same kind, upper-case exactly
      when Caps and Shift differ and lower-case otherwise. */
  lemma LetterCasing(base: string, shifted: Option<string>, caps: bool, shift: bool)
    requires IsLetter(base)
    ensures var r := CharToAdd(base, shifted, caps, shift);
      |r| == 1 && LowerChar(r[0]) == LowerChar(base[0]) &&
      (IsUpperChar(r[0]) <==> caps != shift) &&
      (IsLowerChar(r[0]) <==> caps == shift)
  {
    IsLetterIff(base);
    LetterCases(base[0]);
  }

  /** Caps does not change what a non-letter key types. Without Shift the key
      types its base text; with Shift it types its shifted text when that is
      present and non-empty. */
  lemma NonLetterChoice(base: string, shifted: Option<string>, caps: bool, shift: bool)
    requires !IsLetter(base)
    ensures CharToAdd(base, shifted, caps, shift) == CharToAdd(base, shifted, !caps, shift)
    ensures !shift ==> CharToAdd(base, shifted, caps, shift) == base
    ensures shift && shifted.Some? && shifted.value != "" ==>
      CharToAdd(base, shifted, caps, shift) == shifted.value
    ensures shift && (shifted.None? || shifted.value == "") ==>
      CharToAdd(base, shifted, caps, shift) == base
  {
  }

  /** Space types a space whatever the modifiers are. */
  lemma SpaceAlwaysSpace(caps: bool, shift: bool)
    ensures CharToAdd(" ", None, caps, shift) == " "
  {
    IsLetterIff(" ");
  }

  /** A character key whose base is one character, and whose shifted text has
      at most one, appends exactly one character to the text. Shift is off
      afterwards; the side is cleared when Shift was on and kept otherwise;
      Caps never changes. */
  lemma CharacterKeyOneShot(s: State, base: string, shifted: Option<string>)
    requires |base| == 1 && (shifted.Some? ==> |shifted.value| <= 1)
    ensures var r := CharacterKey(s, base, shifted);
      |r.text| == |s.text| + 1 &&
      Appends(s.text, r.text, CharToAdd(base, shifted, s.caps, s.shift)) &&
      !r.shift && r.caps == s.caps &&
      r.side == (if s.shift then None else s.side)
  {
    var c := CharToAdd(base, shifted, s.caps, s.shift);
    assert |c| == 1;
    var r := CharacterKey(s, base, shifted);
    assert r.text == s.text + c;
  }

  /** Backspace drops the last character of a non-empty text, leaves an empty
      text empty, and changes no modifier. */
  lemma BackspaceDropsLast(s: State)
    ensures var r := BackspaceKey(s);
      SameModifiers(r, s) &&
      (s.text == "" ==> r.text == "") &&
      (s.text != "" ==> Appends(r.text, s.text, [s.text[|s.text| - 1]]))
  {
  }

  /** The router: Enter appends exactly a newline and Tab exactly a tab,
      without using up Shift; Backspace and Caps Lock reach their handlers;
      Ctrl and Alt change nothing. */
  lemma ActionKeyEffects(s: State, a: Action, side: Option<Side>)
    requires a != Shift
    ensures var r := Press(s, ActionKey(a, side));
      (a == Enter ==> Appends(s.text, r.text, "\n") && SameModifiers(r, s)) &&
      (a == Tab ==> Appends(s.text, r.text, "\t") && SameModifiers(r, s)) &&
      (a == Backspace ==> r == BackspaceKey(s)) &&
      (a == CapsLock ==> r == CapsLockKey(s)) &&
      (a == Ctrl || a == Alt ==> r == s)
  {
  }

  /** Caps Lock flips Caps only, so pressing it twice changes nothing. */
  lemma CapsLockInvolution(s: State)
    ensures var r := CapsLockKey(s);
      r.caps != s.caps && r.text == s.text && r.shift == s.shift && r.side == s.side
    ensures CapsLockKey(CapsLockKey(s)) == s
  {
  }

  /** A Shift key flips Shift and leaves the text and Caps alone. Pressed twice
      it restores Shift, and restores the whole state unless the other Shift
      key was the active one. */
  lemma ShiftTwice(s: State, side: Side)
    ensures var r := ShiftKey(s, side);
      r.shift != s.shift && r.text == s.text && r.caps == s.caps &&
      r.side == (if s.side == Some(side) then None else Some(side))
    ensures ShiftKey(ShiftKey(s, side), side).shift == s.shift
    ensures s.side != Some(if side == Left then Right else Left) ==>
      ShiftKey(ShiftKey(s, side), side) == s
  {
    match s.side {
      case None =>
      case Some(active) =>
        if active != side {
          assert active == if side == Left then Right else Left;
        }
    }
  }

  /** Each row's click handler does on that row's keys what the single
      dispatch by kind of key does. */
  lemma ClickAgreesWithPress(row: nat, s: State, k: Key)
    requires 1 <= row <= |ROWS| && k in ROWS[row - 1]
    ensures Click(row, s, k) == Press(s, k)
  {
    match k {
      case BaseKey(b, sh) =>
        if row == 5 {
          Row5WellFormed();
          assert sh.None?;
        }
      case ActionKey(a, side) =>
        if row != 4 {
          NoShiftOutsideRow4(row, k);
          assert a != Shift;
        }
    }
  }

  /** Every well-formed character key, and so every character key of the
      layout, appends exactly one character that a layout key can type, and
      uses up Shift. */
  lemma WellFormedCharacterKey(s: State, k: Key)
    requires WellFormed(k) && k.BaseKey?
    ensures var r := Press(s, k);
      |r.text| == |s.text| + 1 && r.text[..|s.text|] == s.text &&
      Typeable(r.text[|s.text|]) &&
      !r.shift && r.caps == s.caps && r.side == (if s.shift then None else s.side)
  {
    CharacterKeyOneShot(s, k.base, k.shifted);
    var c := CharToAdd(k.base, k.shifted, s.caps, s.shift);
    if IsLetter(k.base) {
      IsLetterIff(k.base);
      LetterCases(k.base[0]);
    }
    assert Typeable(c[0]);
  }
}
