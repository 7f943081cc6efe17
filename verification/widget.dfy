/** The keyboard component's state and handlers as an object whose four
    fields the handlers update in place (src/components/Keyboard.tsx:92-207).
    Each handler is specified by the pure transition of the same name in
    Compose, whose properties are proved there. */
module Widget {
  import opened Options
  import opened Ascii
  import opened Layout
  import opened Compose

  class Keyboard {
    var inputText: string
    var isCaps: bool
    var isShift: bool
    var activeShiftSide: Option<Side>

    /** The four cells as one value. */
    function Snapshot(): (st: State)
      reads this
    {
      State(inputText, isCaps, isShift, activeShiftSide)
    }

    /** The widget starts with empty text, Caps and Shift off and no active
        Shift side. */
    constructor ()
      ensures Snapshot() == INITIAL
    {
      inputText := "";
      isCaps := false;
      isShift := false;
      activeShiftSide := None;
    }

    /** Types a character key: appends the chosen text, then uses up Shift. */
    method HandleCharacterKey(base: string, shifted: Option<string>)
      modifies this
      ensures Snapshot() == CharacterKey(old(Snapshot()), base, shifted)
    {
      var shiftOn := isShift;
      var capsOn := isCaps;
      var charToAdd := CharToAdd(base, shifted, capsOn, shiftOn);
      inputText := inputText + charToAdd;
      if isShift {
        isShift := false;
        activeShiftSide := None;
      }
    }

    method HandleShiftKey(side: Side)
      modifies this
      ensures Snapshot() == ShiftKey(old(Snapshot()), side)
    {
      isShift := !isShift;
      activeShiftSide := if activeShiftSide == Some(side) then None else Some(side);
    }

    method HandleSpaceKey()
      modifies this
      ensures Snapshot() == SpaceKey(old(Snapshot()))
    {
      inputText := inputText + " ";
    }

    method HandleEnterKey()
      modifies this
      ensures Snapshot() == EnterKey(old(Snapshot()))
    {
      inputText := inputText + "\n";
    }

    method HandleTabKey()
      modifies this
      ensures Snapshot() == TabKey(old(Snapshot()))
    {
      inputText := inputText + "\t";
    }

    method HandleBackspaceKey()
      modifies this
      ensures Snapshot() == BackspaceKey(old(Snapshot()))
    {
      inputText := DropLast(inputText);
    }

    method HandleCapsLockKey()
      modifies this
      ensures Snapshot() == CapsLockKey(old(Snapshot()))
    {
      isCaps := !isCaps;
    }

    method HandleRegularKey(key: string)
      modifies this
      ensures Snapshot() == CharacterKey(old(Snapshot()), key, None)
    {
      HandleCharacterKey(key, None);
    }

    /** The key router on the string a key hands it. */
    method HandleKeyClick(key: string)
      modifies this
      ensures Snapshot() == KeyClick(old(Snapshot()), key)
    {
      if key == "Enter" {
        HandleEnterKey();
      } else if key == "Ctrl" || key == "Alt" || key == "Delete"
             || key == "ArrowUp" || key == "ArrowDown" || key == "ArrowLeft" || key == "ArrowRight"
             || key == "<" || key == ">" {
        // these keys do nothing
      } else if key == "Space" {
        HandleSpaceKey();
      } else if key == "Caps Lock" {
        HandleCapsLockKey();
      } else if key == "Tab" {
        HandleTabKey();
      } else if key == "Backspace" {
        HandleBackspaceKey();
      } else {
        HandleRegularKey(key);
      }
    }

    /** A click on key `k` of row `row` (1 to 5), as that row's click handler
        dispatches it. */
    method OnClick(row: nat, k: Key)
      requires 1 <= row <= |ROWS| && k in ROWS[row - 1]
      modifies this
      ensures Snapshot() == Click(row, old(Snapshot()), k)
    {
      match k {
        case ActionKey(a, side) =>
          if row == 4 && a == Shift && side.Some? {
            HandleShiftKey(side.value);
          } else {
            HandleKeyClick(ActionName(a));
          }
        case BaseKey(b, sh) =>
          if row == 5 {
            HandleCharacterKey(b, None);
          } else {
            HandleCharacterKey(b, sh);
          }
      }
    }
  }
}
