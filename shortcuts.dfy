/**
 * Which Alt shortcut a keydown event names. The controller lower-cases the
 * key and compares it with "a", "s" and "f".
 */
module Shortcuts {
  import opened Wrappers

  datatype Shortcut = Panel | Speech | Fullscreen

  const EscapeKey := "Escape"

  function LowerChar(c: char): char
  {
    if 'A' <= c <= 'Z' then (c as int + 32) as char else c
  }

  /**
   * Lower-casing of the key name. Only ASCII letters are mapped: no other
   * character lower-cases to a single "a", "s" or "f", so the comparisons
   * below come out as with full Unicode lower-casing.
   */
  function Lower(s: string): string
  {
    seq(|s|, i requires 0 <= i < |s| => LowerChar(s[i]))
  }

  /** A key lower-cases to the one-letter name `[c]` exactly when it is that letter in either case. */
  lemma LowerIsLetter(key: string, c: char)
    requires 'a' <= c <= 'z'
    ensures Lower(key) == [c] <==> key == [c] || key == [(c as int - 32) as char]
  {
  }

  /** The shortcut an event triggers, if any; only with Alt held. */
  function ShortcutFor(key: string, alt: bool): (r: Option<Shortcut>)
    ensures r == Some(Panel) <==> alt && (key == "a" || key == "A")
    ensures r == Some(Speech) <==> alt && (key == "s" || key == "S")
    ensures r == Some(Fullscreen) <==> alt && (key == "f" || key == "F")
  {
    LowerIsLetter(key, 'a');
    LowerIsLetter(key, 's');
    LowerIsLetter(key, 'f');
    if !alt then None
    else
      var k := Lower(key);
      if k == "a" then Some(Panel)
      else if k == "s" then Some(Speech)
      else if k == "f" then Some(Fullscreen)
      else None
  }

  /** Escape is never a shortcut, with or without Alt. */
  lemma EscapeIsNoShortcut(alt: bool)
    ensures ShortcutFor(EscapeKey, alt) == None
  {
  }
}
