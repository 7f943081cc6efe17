/** A session of the widget: the sequence of keys a user clicks, starting from
    the initial state. */
module Session {
  import opened Options
  import opened Ascii
  import opened Layout
  import opened Compose

  /** The state after pressing `keys` in order. */
  function Run(s: State, keys: seq<Key>): (r: State)
    decreases |keys|
  {
    if keys == [] then s else Run(Press(s, keys[0]), keys[1..])
  }

  /** How many of `keys` are Caps Lock keys. */
  function CapsPresses(keys: seq<Key>): (n: nat) {
    if keys == [] then 0
    else (if keys[0].ActionKey? && keys[0].action == CapsLock then 1 else 0) + CapsPresses(keys[1..])
  }

  /** Every character of `text` is one a layout key can type. */
  predicate AllTypeable(text: string) {
    forall i :: 0 <= i < |text| ==> Typeable(text[i])
  }

  /** Keys that come from the layout. */
  predicate FromLayout(keys: seq<Key>) {
    forall k :: k in keys ==> k in ALL_KEYS
  }

  /** Keys of the shape every layout key has. */
  predicate AllWellFormed(keys: seq<Key>) {
    forall k :: k in keys ==> WellFormed(k)
  }

  /** Layout keys are well formed, so the properties below stated for well
      formed keys hold of every session of layout keys. */
  lemma LayoutSessionsWellFormed(keys: seq<Key>)
    requires FromLayout(keys)
    ensures AllWellFormed(keys)
  {
    AllKeysWellFormed();
  }

  /** Caps changes on a key exactly when the key is Caps Lock. */
  lemma PressCaps(s: State, k: Key)
    ensures Press(s, k).caps == if k.ActionKey? && k.action == CapsLock then !s.caps else s.caps
  {
    match k
    case BaseKey(b, sh) =>
    case ActionKey(a, side) =>
      if a == Shift && side.None? {
        assert Press(s, k) == CharacterKey(s, "Shift", None);
      } else if a != Shift {
        ActionKeyEffects(s, a, side);
      }
  }

  /** After any sequence of keys, Caps is on exactly when it started on and
      Caps Lock was pressed an even number of times, or started off and was
      pressed an odd number of times. */
  lemma {:induction false} RunCaps(s: State, keys: seq<Key>)
    ensures Run(s, keys).caps == (s.caps != (CapsPresses(keys) % 2 == 1))
    decreases |keys|
  {
    if keys != [] {
      PressCaps(s, keys[0]);
      RunCaps(Press(s, keys[0]), keys[1..]);
    }
  }

  /** A well-formed key adds at most one character, and only one that a
      layout key can type. */
  lemma PressKeepsTypeable(s: State, k: Key)
    requires WellFormed(k) && AllTypeable(s.text)
    ensures |Press(s, k).text| <= |s.text| + 1 && AllTypeable(Press(s, k).text)
  {
    var t := Press(s, k).text;
    match k {
      case BaseKey(b, sh) =>
        WellFormedCharacterKey(s, k);
        assert forall i :: 0 <= i < |s.text| ==> t[i] == t[..|s.text|][i];
      case ActionKey(a, side) =>
        if a != Shift {
          ActionKeyEffects(s, a, side);
          if a == Backspace {
            assert forall i :: 0 <= i < |t| ==> t[i] == s.text[i];
          } else if a == Enter || a == Tab {
            assert forall i :: 0 <= i < |s.text| ==> t[i] == t[..|s.text|][i];
          }
        }
    }
  }

  /** Over a session of well-formed keys the text only ever holds characters
      a layout key can type, and grows by at most one character per key. */
  lemma {:induction false} RunKeepsTypeable(s: State, keys: seq<Key>)
    requires AllWellFormed(keys) && AllTypeable(s.text)
    ensures |Run(s, keys).text| <= |s.text| + |keys| && AllTypeable(Run(s, keys).text)
    decreases |keys|
  {
    if keys != [] {
      assert keys[0] in keys;
      PressKeepsTypeable(s, keys[0]);
      assert forall k :: k in keys[1..] ==> k in keys;
      RunKeepsTypeable(Press(s, keys[0]), keys[1..]);
    }
  }

  /** Without Backspace, a session of well-formed keys never removes text:
      what was there stays a prefix of what there is afterwards. */
  lemma {:induction false} RunWithoutBackspaceExtends(s: State, keys: seq<Key>)
    requires AllWellFormed(keys)
    requires forall k :: k in keys ==> !(k.ActionKey? && k.action == Backspace)
    ensures |Run(s, keys).text| >= |s.text| && Run(s, keys).text[..|s.text|] == s.text
    decreases |keys|
  {
    if keys != [] {
      var k := keys[0];
      var t := Press(s, k);
      assert k in keys;
      match k {
        case BaseKey(b, sh) =>
          WellFormedCharacterKey(s, k);
        case ActionKey(a, side) =>
          if a != Shift {
            ActionKeyEffects(s, a, side);
          }
      }
      assert |t.text| >= |s.text| && t.text[..|s.text|] == s.text;
      assert forall k :: k in keys[1..] ==> k in keys;
      RunWithoutBackspaceExtends(t, keys[1..]);
      var u := Run(t, keys[1..]);
      assert u.text[..|s.text|] == u.text[..|t.text|][..|s.text|];
    }
  }

  // ---------------------------------------------------------------------
  // Sessions from the initial state

  /** Caps Lock, then "a" twice: Caps stays on, so both come out upper-case. */
  lemma CapsScenario()
    ensures ROW3[0] == ActionKey(CapsLock, None) && ROW3[1] == BaseKey("a", None)
    ensures Run(INITIAL, [ROW3[0], ROW3[1], ROW3[1]]) == State("AA", true, false, None)
  {
    var s1 := State("", true, false, None);
    assert Press(INITIAL, ROW3[0]) == s1;
    assert ToUpper("a") == "A";
    assert Press(s1, ROW3[1]) == State("A", true, false, None);
    assert "A" + "A" == "AA";
    assert Press(State("A", true, false, None), ROW3[1]) == State("AA", true, false, None);
    assert [ROW3[0], ROW3[1], ROW3[1]][1..] == [ROW3[1], ROW3[1]];
    assert [ROW3[1], ROW3[1]][1..] == [ROW3[1]];
    assert Run(State("A", true, false, None), [ROW3[1]]) == State("AA", true, false, None);
    assert Run(s1, [ROW3[1], ROW3[1]]) == State("AA", true, false, None);
  }

  /** Left Shift, then "1": the shifted "!" is typed and Shift and its side
      are cleared. */
  lemma ShiftScenario()
    ensures ROW4[0] == ActionKey(Shift, Some(Left)) && ROW1[1] == BaseKey("1", Some("!"))
    ensures Run(INITIAL, [ROW4[0]]) == State("", false, true, Some(Left))
    ensures Run(INITIAL, [ROW4[0], ROW1[1]]) == State("!", false, false, None)
  {
    var s1 := State("", false, true, Some(Left));
    assert Press(INITIAL, ROW4[0]) == s1;
    IsLetterIff("1");
    assert Press(s1, ROW1[1]) == State("!", false, false, None);
    assert [ROW4[0], ROW1[1]][1..] == [ROW1[1]];
    assert Run(s1, [ROW1[1]]) == State("!", false, false, None);
  }

  /** From "Hello": Backspace, Enter and Tab give "Hell", a newline and a tab. */
  lemma EditScenario()
    ensures Run(State("Hello", false, false, None),
                [ActionKey(Backspace, None), ActionKey(Enter, None), ActionKey(Tab, None)]).text
            == "Hell\n\t"
  {
  }

  /** Left Shift then right Shift leaves Shift off while the right side is
      still marked active: the two cells are updated independently. */
  lemma ShiftSidesIndependent()
    ensures Run(INITIAL, [ROW4[0], ROW4[|ROW4| - 1]]) == State("", false, false, Some(Right))
    ensures Run(INITIAL, [ROW4[0], ROW4[|ROW4| - 1], ROW4[|ROW4| - 1]]) == State("", false, true, None)
  {
    var left, right := ROW4[0], ROW4[|ROW4| - 1];
    var s1 := Press(INITIAL, left);
    assert s1 == State("", false, true, Some(Left));
    var s2 := Press(s1, right);
    assert s2 == State("", false, false, Some(Right));
    assert Press(s2, right) == State("", false, true, None);
    assert [left, right][1..] == [right];
    assert [left, right, right][1..] == [right, right];
    assert [right, right][1..] == [right];
    assert Run(s1, [right]) == s2;
    assert Run(s2, [right]) == State("", false, true, None);
    assert Run(s1, [right, right]) == State("", false, true, None);
  }
}
