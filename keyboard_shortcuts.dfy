/**
 * The keyboard shortcut registry of the main window: actions stored under a
 * text key made from a key and its modifier flags, looked up on every
 * key-down, and the display text of a shortcut.
 */
module KeyboardShortcuts {
  import opened Wrappers
  import opened Text

  /** A VirtualKey, by the name its ToString gives. */
  datatype VirtualKey = VirtualKey(name: string)

  /** A VirtualKeyModifiers value: the flags Control (1), Menu (2), Shift (4) and Windows (8). */
  datatype Modifiers = Modifiers(control: bool, menu: bool, shift: bool, windows: bool)

  const NoModifiers := Modifiers(false, false, false, false)

  /** The flag names of ToString, in the order of their values. */
  function FlagNames(m: Modifiers): seq<string>
  {
    (if m.control then ["Control"] else []) + (if m.menu then ["Menu"] else [])
    + (if m.shift then ["Shift"] else []) + (if m.windows then ["Windows"] else [])
  }

  /** string.Join(", ", names). */
  function JoinComma(names: seq<string>): string
    decreases |names|
  {
    if |names| == 0 then ""
    else if |names| == 1 then names[0]
    else names[0] + ", " + JoinComma(names[1..])
  }

  /** Some name contains the character. */
  predicate InSome(names: seq<string>, c: char)
  {
    exists i :: 0 <= i < |names| && c in names[i]
  }

  lemma InSomeAppend(a: seq<string>, b: seq<string>, c: char)
    ensures InSome(a + b, c) <==> InSome(a, c) || InSome(b, c)
  {
    if InSome(a, c) {
      var i :| 0 <= i < |a| && c in a[i];
      assert (a + b)[i] == a[i];
    }
    if InSome(a + b, c) {
      var i :| 0 <= i < |a + b| && c in (a + b)[i];
      if i >= |a| {
        assert b[i - |a|] == (a + b)[i];
      }
    }
    if InSome(b, c) {
      var i :| 0 <= i < |b| && c in b[i];
      assert (a + b)[i + |a|] == b[i];
    }
  }

  /** A character other than the separator's occurs in the joined text exactly when it occurs in a name. */
  lemma {:induction false} JoinCommaChars(names: seq<string>, c: char)
    requires c != ',' && c != ' '
    ensures c in JoinComma(names) <==> InSome(names, c)
    decreases |names|
  {
    if |names| > 1 {
      JoinCommaChars(names[1..], c);
      InSomeAppend([names[0]], names[1..], c);
      assert names == [names[0]] + names[1..];
    }
  }

  lemma InSomeSingle(x: string, c: char)
    ensures InSome([x], c) <==> c in x
  {
    if c in x {
      assert [x][0] == x;
    }
  }

  /** The character occurs in a flag name exactly when one of the set flags' names has it. */
  lemma FlagNamesChars(m: Modifiers, c: char)
    ensures InSome(FlagNames(m), c) <==>
      (m.control && c in "Control") || (m.menu && c in "Menu") || (m.shift && c in "Shift") || (m.windows && c in "Windows")
  {
    var a: seq<string> := if m.control then ["Control"] else [];
    var b: seq<string> := if m.menu then ["Menu"] else [];
    var d: seq<string> := if m.shift then ["Shift"] else [];
    var e: seq<string> := if m.windows then ["Windows"] else [];
    InSomeSingle("Control", c);
    InSomeSingle("Menu", c);
    InSomeSingle("Shift", c);
    InSomeSingle("Windows", c);
    InSomeAppend(a, b, c);
    InSomeAppend(a + b, d, c);
    InSomeAppend(a + b + d, e, c);
  }

  /** Enum.ToString of a flags value: "None" for no flag, otherwise the set flags' names joined by ", ". */
  function ModifiersText(m: Modifiers): string
  {
    if m == NoModifiers then "None" else JoinComma(FlagNames(m))
  }

  /**
   * Each flag shows in the text by its capital initial, which no other name
   * and not "None" contains, and the text never contains "+".
   */
  lemma ModifiersTextFlags(m: Modifiers)
    ensures 'C' in ModifiersText(m) <==> m.control
    ensures 'M' in ModifiersText(m) <==> m.menu
    ensures 'S' in ModifiersText(m) <==> m.shift
    ensures 'W' in ModifiersText(m) <==> m.windows
    ensures '+' !in ModifiersText(m)
  {
    FlagInitial(m, 'C');
    FlagInitial(m, 'M');
    FlagInitial(m, 'S');
    FlagInitial(m, 'W');
    FlagInitial(m, '+');
  }

  lemma FlagInitial(m: Modifiers, c: char)
    requires c in "CMSW+"
    ensures c in ModifiersText(m) <==>
      (c == 'C' && m.control) || (c == 'M' && m.menu) || (c == 'S' && m.shift) || (c == 'W' && m.windows)
  {
    ModifiersTextChar(m, c);
    assert c in "Control" <==> c == 'C';
    assert c in "Menu" <==> c == 'M';
    assert c in "Shift" <==> c == 'S';
    assert c in "Windows" <==> c == 'W';
    assert c !in "None";
  }

  lemma ModifiersTextChar(m: Modifiers, c: char)
    requires c != ',' && c != ' '
    ensures c in ModifiersText(m) <==>
      if m == NoModifiers then c in "None"
      else (m.control && c in "Control") || (m.menu && c in "Menu") || (m.shift && c in "Shift") || (m.windows && c in "Windows")
  {
    if m != NoModifiers {
      JoinCommaChars(FlagNames(m), c);
      FlagNamesChars(m, c);
    }
  }

  /** Each flag combination has its own text. */
  lemma ModifiersTextInjective(a: Modifiers, b: Modifiers)
    requires ModifiersText(a) == ModifiersText(b)
    ensures a == b
  {
    ModifiersTextFlags(a);
    ModifiersTextFlags(b);
  }

  /** GetShortcutKey: "{modifiers}+{key}". */
  function ShortcutKey(key: VirtualKey, m: Modifiers): string
  {
    ModifiersText(m) + "+" + key.name
  }

  /** Two combinations share a dictionary key only when they are the same combination. */
  lemma ShortcutKeyInjective(k1: VirtualKey, m1: Modifiers, k2: VirtualKey, m2: Modifiers)
    requires ShortcutKey(k1, m1) == ShortcutKey(k2, m2)
    ensures k1 == k2 && m1 == m2
  {
    var a, c := ModifiersText(m1), ModifiersText(m2);
    var s := ShortcutKey(k1, m1);
    ModifiersTextFlags(m1);
    ModifiersTextFlags(m2);
    SplitAtSeparator(a, '+', k1.name);
    SplitAtSeparator(c, '+', k2.name);
    assert a == Split(s, '+')[0] == c;
    ModifiersTextInjective(m1, m2);
    assert k1.name == s[|a| + 1..] == k2.name;
  }

  /** The states of the modifier keys the window reports. */
  datatype KeyStates = KeyStates(ctrlDown: bool, shiftDown: bool, altDown: bool, winDown: bool)

  /** GetCurrentModifiers: the flags of the keys held down; none without a core window. */
  function CurrentModifiers(window: Option<KeyStates>): (m: Modifiers)
    ensures window.None? ==> m == NoModifiers
    ensures window.Some? ==> m.control == window.value.ctrlDown && m.shift == window.value.shiftDown
    ensures window.Some? ==> m.menu == window.value.altDown && m.windows == window.value.winDown
  {
    if window.None? then NoModifiers
    else
      var k := window.value;
      Modifiers(k.ctrlDown, k.altDown, k.shiftDown, k.winDown)
  }

  /** The parts of GetShortcutDisplayText: Ctrl, Shift, Alt and Win as present, then the key. */
  function DisplayParts(key: VirtualKey, m: Modifiers): seq<string>
  {
    (if m.control then ["Ctrl"] else []) + (if m.shift then ["Shift"] else [])
    + (if m.menu then ["Alt"] else []) + (if m.windows then ["Win"] else []) + [key.name]
  }

  /** GetShortcutDisplayText: the parts joined by "+". */
  function DisplayText(key: VirtualKey, m: Modifiers): string
  {
    Join(DisplayParts(key, m), '+')
  }

  /**
   * The display text splits at "+" into the present modifiers in the order
   * Ctrl, Shift, Alt, Win (Shift before Alt, unlike the flag values), then
   * the key name, when that name has no "+" of its own.
   */
  lemma DisplayTextParts(key: VirtualKey, m: Modifiers)
    requires '+' !in key.name
    ensures Split(DisplayText(key, m), '+') == DisplayParts(key, m)
    ensures |DisplayParts(key, m)| ==
      1 + (if m.control then 1 else 0) + (if m.shift then 1 else 0) + (if m.menu then 1 else 0) + (if m.windows then 1 else 0)
    ensures DisplayParts(key, m)[|DisplayParts(key, m)| - 1] == key.name
  {
    var parts := DisplayParts(key, m);
    assert forall k :: 0 <= k < |parts| ==> parts[k] in {"Ctrl", "Shift", "Alt", "Win", key.name};
    SplitJoin(parts, '+');
  }

  /** Ctrl+Shift+Esc, for instance. */
  lemma DisplayTextExample()
    ensures DisplayText(VirtualKey("Escape"), Modifiers(true, false, true, false)) == "Ctrl+Shift+Escape"
  {
  }

  /** KeyboardShortcutHelper: the actions by shortcut key; an action may be null (None). */
  class KeyboardShortcutHelper<A> {
    var shortcuts: map<string, Option<A>>

    constructor ()
      ensures shortcuts == map[]
    {
      shortcuts := map[];
    }

    /** RegisterShortcut(key, modifiers, action): the action replaces any earlier one for that combination. */
    method RegisterShortcut(key: VirtualKey, m: Modifiers, action: Option<A>)
      modifies this
      ensures shortcuts == old(shortcuts)[ShortcutKey(key, m) := action]
    {
      var shortcutKey := ShortcutKey(key, m);
      shortcuts := shortcuts[shortcutKey := action];
    }

    /** RegisterShortcut(key, action): the same with no modifiers. */
    method RegisterKey(key: VirtualKey, action: Option<A>)
      modifies this
      ensures shortcuts == old(shortcuts)[ShortcutKey(key, NoModifiers) := action]
    {
      RegisterShortcut(key, NoModifiers, action);
    }

    /** UnregisterShortcut: removes that combination only. */
    method UnregisterShortcut(key: VirtualKey, m: Modifiers)
      modifies this
      ensures shortcuts == old(shortcuts) - {ShortcutKey(key, m)}
    {
      var shortcutKey := ShortcutKey(key, m);
      shortcuts := shortcuts - {shortcutKey};
    }

    /** ClearAllShortcuts. */
    method ClearAllShortcuts()
      modifies this
      ensures shortcuts == map[]
    {
      shortcuts := map[];
    }

    /**
     * OnKeyDown: the combination of the key and the modifiers held down is
     * looked up; when registered the event is handled and its action (if not
     * null) invoked, otherwise nothing happens.
     */
    method OnKeyDown(key: VirtualKey, window: Option<KeyStates>) returns (handled: bool, invoked: Option<A>)
      ensures handled <==> ShortcutKey(key, CurrentModifiers(window)) in shortcuts
      ensures handled ==> invoked == shortcuts[ShortcutKey(key, CurrentModifiers(window))]
      ensures !handled ==> invoked == None
    {
      var shortcutKey := ShortcutKey(key, CurrentModifiers(window));
      if shortcutKey in shortcuts {
        handled := true;
        invoked := shortcuts[shortcutKey];
      } else {
        handled, invoked := false, None;
      }
    }

    /** The action a combination triggers, if it is registered. */
    function Lookup(key: VirtualKey, m: Modifiers): Option<Option<A>>
      reads this
    {
      var k := ShortcutKey(key, m);
      if k in shortcuts then Some(shortcuts[k]) else None
    }
  }

  /**
   * After registering an action for a combination, that combination finds it
   * and every other combination finds what it found before; after
   * unregistering, that combination finds nothing and the others are untouched.
   */
  lemma RegisterFindsAction<A>(before: map<string, Option<A>>, key: VirtualKey, m: Modifiers, action: Option<A>,
                               otherKey: VirtualKey, otherM: Modifiers)
    requires (otherKey, otherM) != (key, m)
    ensures var after := before[ShortcutKey(key, m) := action];
      && ShortcutKey(key, m) in after && after[ShortcutKey(key, m)] == action
      && (ShortcutKey(otherKey, otherM) in after <==> ShortcutKey(otherKey, otherM) in before)
      && (ShortcutKey(otherKey, otherM) in before ==> after[ShortcutKey(otherKey, otherM)] == before[ShortcutKey(otherKey, otherM)])
    ensures var removed := before - {ShortcutKey(key, m)};
      && ShortcutKey(key, m) !in removed
      && (ShortcutKey(otherKey, otherM) in removed <==> ShortcutKey(otherKey, otherM) in before)
  {
    if ShortcutKey(otherKey, otherM) == ShortcutKey(key, m) {
      ShortcutKeyInjective(otherKey, otherM, key, m);
    }
  }

  /** Registering twice keeps only the second action; a key-down with that combination then invokes it. */
  method RegisterTwiceThenPress<A>(helper: KeyboardShortcutHelper<A>, key: VirtualKey, first: A, second: A)
    modifies helper
    ensures helper.shortcuts == old(helper.shortcuts)[ShortcutKey(key, NoModifiers) := Some(second)]
  {
    helper.RegisterKey(key, Some(first));
    helper.RegisterKey(key, Some(second));
    var handled, invoked := helper.OnKeyDown(key, None);
    assert handled && invoked == Some(second);
  }
}
