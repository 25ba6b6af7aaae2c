/** The theme registry and the Alt+Q shortcut that cycles it (src/App.jsx, lines 32-63 and 81-85). */
module ThemeRegistry {

  /** A named palette; its style-class tokens are presentation and are not modelled. */
  datatype Theme = Theme(name: string)

  const Themes: seq<Theme> := [Theme("Minimal"), Theme("Dark"), Theme("Vintage")]

  const ThemeCount: nat := |Themes|

  /** An index into `Themes`. */
  type ThemeIndex = t: nat | t < ThemeCount

  /** The parts of a `keydown` event the handler looks at. */
  datatype KeyEvent = KeyEvent(altKey: bool, key: string)

  /** Lower-casing of one character; only the ASCII letters A-Z are mapped. */
  function LowerChar(c: char): char
  {
    if 'A' <= c <= 'Z' then (c as int - 'A' as int + 'a' as int) as char else c
  }

  /** `String.prototype.toLowerCase`, restricted to ASCII case mapping. */
  function ToLower(s: string): (r: string)
    ensures |r| == |s|
    ensures forall i :: 0 <= i < |s| ==> r[i] == LowerChar(s[i])
  {
    if s == [] then [] else [LowerChar(s[0])] + ToLower(s[1..])
  }

  /** The condition of the key handler: Alt is held and the key lower-cases to "q". */
  predicate IsThemeShortcut(e: KeyEvent)
  {
    e.altKey && ToLower(e.key) == "q"
  }

  /** The state updater `(prev) => (prev + 1) % themes.length`. */
  function NextTheme(prev: ThemeIndex): (t: ThemeIndex)
    ensures prev + 1 < ThemeCount ==> t == prev + 1
    ensures prev + 1 == ThemeCount ==> t == 0
  {
    (prev + 1) % ThemeCount
  }

  /** The theme index after the key handler has seen `e`: only Alt with "q" or
      "Q" changes it, and then to the next theme. */
  function KeyDownTheme(theme: ThemeIndex, e: KeyEvent): (t: ThemeIndex)
    ensures t != theme <==> e.altKey && (e.key == "q" || e.key == "Q")
    ensures t != theme ==> t == NextTheme(theme)
  {
    ThemeShortcutKeys(e);
    if IsThemeShortcut(e) then NextTheme(theme) else theme
  }

  /** The shortcut is exactly Alt with "q" or "Q"; any other key, or any key
      without Alt, is not the shortcut. */
  lemma ThemeShortcutKeys(e: KeyEvent)
    ensures IsThemeShortcut(e) <==> e.altKey && (e.key == "q" || e.key == "Q")
  {
    if e.key == "q" || e.key == "Q" {
      assert ToLower(e.key) == [LowerChar(e.key[0])];
    }
    if ToLower(e.key) == "q" {
      assert |e.key| == 1 && LowerChar(e.key[0]) == 'q';
      assert e.key == [e.key[0]];
    }
  }

  /** The theme after `n` presses of the shortcut. */
  function Presses(theme: ThemeIndex, n: nat): ThemeIndex
  {
    if n == 0 then theme else NextTheme(Presses(theme, n - 1))
  }

  /** `n` presses advance the index by `n`, circularly. */
  lemma {:induction false} PressesAdvance(theme: ThemeIndex, n: nat)
    ensures Presses(theme, n) == (theme + n) % ThemeCount
  {
    if n > 0 {
      PressesAdvance(theme, n - 1);
    }
  }

  /** Pressing the shortcut once per theme brings back the starting theme. */
  lemma FullCycleRestoresTheme(theme: ThemeIndex)
    ensures Presses(theme, ThemeCount) == theme
  {
    PressesAdvance(theme, ThemeCount);
  }

  /** Fewer presses than there are themes always land on a different theme. */
  lemma ShortCycleChangesTheme(theme: ThemeIndex, n: nat)
    requires 0 < n < ThemeCount
    ensures Presses(theme, n) != theme
  {
    PressesAdvance(theme, n);
  }
}
