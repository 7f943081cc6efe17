# Virtual keyboard: composition engine

A model of the key-interpretation and text-composition engine of an on-screen
keyboard component (`src/components/Keyboard.tsx`). The component keeps four
state cells: the composed text `inputText`, the Caps Lock flag `isCaps`, the
one-shot Shift flag `isShift` and the highlighted Shift side
`activeShiftSide`. A static layout of five rows of key descriptors is
rendered, and a click on a key runs one handler that updates those cells.

Modules:

- `Options` (`options.dfy`): the optional value used for optional fields and `null`.
- `Ascii` (`ascii.dfy`): ASCII upper/lower-casing and the letter test `isLetter`.
- `Layout` (`layout.dfy`): the key descriptor union (`BaseKey` with a base and
  optional shifted text, `ActionKey` with an action and optional side), the
  constant rows `ROW1`-`ROW5`, and facts about every key that can be pressed.
- `Compose` (`compose.dfy`): the session state as a value, the character
  chosen by a character key (`CharToAdd`), one pure transition per handler,
  the string router `KeyClick`, the per-row click dispatch `Click`, a single
  dispatch by kind of key `Press`, and the properties of one key press.
- `Session` (`session.dfy`): sequences of presses (`Run`) and the properties of
  whole sessions, including worked sessions from the initial state.
- `Widget` (`widget.dfy`): the component as a class `Keyboard` with the four
  fields and one method per handler; each method updates the fields in place
  and is specified by the pure transition of the same name in `Compose`.

The layout has 58 keys, in rows of 14, 14, 13, 12 and 5. Space is an
ordinary character key of the layout, so it uses up Shift like any other
character key (it still always types a space). The router's own `"Space"`
branch appends a space without using up Shift, but no layout key reaches it.

## Model

| member | source | states |
|---|---|---|
| `Ascii.IsLetterIff` | src/components/Keyboard.tsx:101-103 | a key text counts as a letter exactly when it is one ASCII letter |
| `Ascii.LetterCases` | src/components/Keyboard.tsx:118-120 | upper-casing gives an upper-case letter, lower-casing a lower-case one, and each undoes the other |
| `Layout.ActionNamesDistinct` | src/components/Keyboard.tsx:12 | the action names are pairwise distinct, so the router tells every action apart |
| `Layout.Char` | src/components/Keyboard.tsx:38-47 | a key written with only a base character (a lower-case letter or Space) is well formed |
| `Layout.Pair` | src/components/Keyboard.tsx:20-32 | a key written with a base and a shifted character, neither a letter, is well formed |
| `Layout.LayoutShape` | src/components/Keyboard.tsx:19-90 | five rows of 14, 14, 13, 12 and 5 keys, 58 in all |
| `Layout.Row1WellFormed` | src/components/Keyboard.tsx:19-34 | every character key of row 1 has one printable base character and a shifted form of one printable character, Backspace has no side, and none is a Shift key |
| `Layout.Row2WellFormed` | src/components/Keyboard.tsx:36-51 | every key of row 2 is well formed (its letters lower-case with no shifted form) and none is a Shift key |
| `Layout.Row3WellFormed` | src/components/Keyboard.tsx:53-67 | every key of row 3 is well formed and none is a Shift key |
| `Layout.Row4WellFormed` | src/components/Keyboard.tsx:69-82 | every key of row 4 is well formed; its Shift keys carry a side |
| `Layout.Row5WellFormed` | src/components/Keyboard.tsx:84-90 | every key of row 5 is well formed, none is a Shift key, and its only character key is Space without shifted form |
| `Layout.AllKeysWellFormed` | src/components/Keyboard.tsx:19-90 | every pressable key is well formed: single printable characters, lower-case letters without shifted form, a side exactly on Shift keys |
| `Layout.ShiftKeysPlacement` | src/components/Keyboard.tsx:69-81 | left Shift opens and right Shift closes row 4 |
| `Layout.NoShiftOutsideRow4` | src/components/Keyboard.tsx:19-90 | no key of rows 1, 2, 3 or 5 is a Shift key |
| `Compose.LetterCasing` | src/components/Keyboard.tsx:112-120 | a letter key types one letter of the same letter, upper-case exactly when Caps and Shift differ, lower-case exactly when they agree |
| `Compose.NonLetterChoice` | src/components/Keyboard.tsx:121-128 | for a non-letter Caps has no influence; without Shift the base is typed; with Shift the shifted text if present and non-empty, else the base |
| `Compose.SpaceAlwaysSpace` | src/components/Keyboard.tsx:87 | Space types a space under every combination of Caps and Shift |
| `Compose.CharacterKeyOneShot` | src/components/Keyboard.tsx:106-137 | a single-character key appends exactly one character (old text is a prefix); Shift is off afterwards, the side cleared if Shift was on and kept otherwise; Caps unchanged |
| `Compose.BackspaceDropsLast` | src/components/Keyboard.tsx:161-163 | Backspace removes the last character of a non-empty text, leaves an empty text empty, changes no modifier |
| `Compose.ActionKeyEffects` | src/components/Keyboard.tsx:177-207 | through the router Enter appends exactly a newline and Tab exactly a tab without touching the modifiers; Backspace and Caps Lock reach their handlers; Ctrl and Alt change nothing |
| `Compose.CapsLockInvolution` | src/components/Keyboard.tsx:166-168 | Caps Lock flips Caps and nothing else; pressing it twice is the identity |
| `Compose.ShiftTwice` | src/components/Keyboard.tsx:140-143 | a Shift key flips Shift, keeps text and Caps, clears the side when it was this side and makes this side active otherwise; twice restores Shift, and the whole state unless the other side was active |
| `Compose.ClickAgreesWithPress` | src/components/Keyboard.tsx:229-380 | on every layout key, each row's click handler does what the single dispatch by kind of key does |
| `Compose.WellFormedCharacterKey` | src/components/Keyboard.tsx:106-137 | every well-formed character key, so every one in the layout, appends exactly one typeable character (old text a prefix), turns Shift off, clears the side only if Shift was on, keeps Caps |
| `Session.PressCaps` | src/components/Keyboard.tsx:194-195 | a key changes Caps exactly when it is a Caps Lock key |
| `Session.RunCaps` | src/components/Keyboard.tsx:166-168 | after any session Caps equals its start value flipped by the parity of Caps Lock presses |
| `Session.LayoutSessionsWellFormed` | src/components/Keyboard.tsx:19-90 | every sequence of layout keys consists of well-formed keys, so the session lemmas apply to it |
| `Session.PressKeepsTypeable` | src/components/Keyboard.tsx:130-163 | one well-formed key adds at most one character, and only a typeable one |
| `Session.RunKeepsTypeable` | src/components/Keyboard.tsx:130-163 | over a session of well-formed keys the text holds only typeable characters and grows by at most one per key |
| `Session.RunWithoutBackspaceExtends` | src/components/Keyboard.tsx:130-158 | without Backspace a session of well-formed keys never removes text: the earlier text stays a prefix |
| `Session.CapsScenario` | src/components/Keyboard.tsx:53-55 | from the start, Caps Lock then "a" twice gives "AA" with Caps still on |
| `Session.ShiftScenario` | src/components/Keyboard.tsx:132-136 | from the start, left Shift then "1" gives "!" and clears Shift and its side |
| `Session.EditScenario` | src/components/Keyboard.tsx:151-163 | from "Hello", Backspace, Enter, Tab give "Hell" followed by a newline and a tab |
| `Session.ShiftSidesIndependent` | src/components/Keyboard.tsx:140-143 | left then right Shift leaves Shift off with the right side still active; right again turns Shift on with no side |
| `Widget.Keyboard.constructor` | src/components/Keyboard.tsx:94-98 | the widget starts with empty text, Caps and Shift off, no active side |
| `Widget.Keyboard.HandleCharacterKey` | src/components/Keyboard.tsx:106-137 | appends the chosen character and uses up Shift, as `Compose.CharacterKey` |
| `Widget.Keyboard.HandleShiftKey` | src/components/Keyboard.tsx:140-143 | flips Shift and toggles the side, as `Compose.ShiftKey` |
| `Widget.Keyboard.HandleSpaceKey` | src/components/Keyboard.tsx:146-148 | appends a space and nothing else |
| `Widget.Keyboard.HandleEnterKey` | src/components/Keyboard.tsx:151-153 | appends a newline and nothing else |
| `Widget.Keyboard.HandleTabKey` | src/components/Keyboard.tsx:156-158 | appends a tab and nothing else |
| `Widget.Keyboard.HandleBackspaceKey` | src/components/Keyboard.tsx:161-163 | drops the last character, as `Compose.BackspaceKey` |
| `Widget.Keyboard.HandleCapsLockKey` | src/components/Keyboard.tsx:166-168 | flips Caps and nothing else |
| `Widget.Keyboard.HandleRegularKey` | src/components/Keyboard.tsx:171-173 | types the string as a character key without shifted form |
| `Widget.Keyboard.HandleKeyClick` | src/components/Keyboard.tsx:177-207 | routes the key string to its handler, as `Compose.KeyClick` |
| `Widget.Keyboard.OnClick` | src/components/Keyboard.tsx:229-380 | dispatches a click on a layout key as that key's row does, as `Compose.Click` |

## Left out

- Rendering: the JSX, CSS class selection, key labels and the text area are presentation only (src/components/Keyboard.tsx:209-393); only the click dispatch is modelled.
- The `icon` field and the `react-icons` components: foreign UI objects with no effect on behaviour.
- React state mechanics: `useState`, functional updaters and render batching are modelled as one atomic, sequential update of the four fields per handler, reading the current Shift value.
- Unicode case mapping: `toUpperCase`/`toLowerCase` and the letter test are modelled on ASCII only, which covers every character in the layout.
- The commented-out alternative Shift route in the router is dead code and is not modelled.
- A Shift action key without a side is not part of the layout; the row-4 click dispatch is modelled only on layout keys, where every Shift key has a side. `Compose.Press` sends such a key to the router by name, as rows 1-3 and 5 would.
- The router branches for "Delete", the arrow keys, "<", ">" and "Space" are modelled but carry no properties of their own, since no layout key reaches them.
