/**
 The three themes of the switcher and their fixed cyclic order
 light -> dark -> synthwave -> light.
 */
module Themes {
  import opened Sequences
  import opened Options

  datatype Theme = Light | Dark | Synthwave

  /** The order of this list is the direction of cycling. */
  const THEMES: seq<Theme> := [Light, Dark, Synthwave]

  /** The literal strings written to the document attribute and to storage. */
  const THEME_NAMES: seq<string> := ["light", "dark", "synthwave"]

  /** Position of `t` in the cycle. */
  function Index(t: Theme): (i: nat)
    ensures i < |THEMES| && THEMES[i] == t
  {
    match t
    case Light => 0
    case Dark => 1
    case Synthwave => 2
  }

  /** The position agrees with `THEMES.indexOf(t)`, the lookup the script performs. */
  lemma IndexIsIndexOf(t: Theme)
    ensures IndexOf(THEMES, t) == Index(t)
  {
  }

  /** The string that names `t`. */
  function Name(t: Theme): (s: string)
    ensures s == THEME_NAMES[Index(t)]
  {
    match t
    case Light => "light"
    case Dark => "dark"
    case Synthwave => "synthwave"
  }

  /** Reads a stored string as a theme; anything outside the list is None. */
  function Parse(s: string): (r: Option<Theme>)
    ensures r.Some? <==> s in THEME_NAMES
    ensures r.Some? ==> Name(r.value) == s
  {
    if Includes(THEME_NAMES, s) then Some(THEMES[IndexOf(THEME_NAMES, s)]) else None
  }

  /** Every theme survives being written out as its name and read back. */
  lemma ParseName(t: Theme)
    ensures Parse(Name(t)) == Some(t)
  {
  }

  /**
   The theme one click moves to: the entry after `t` in THEMES, wrapping
   round at the end.
   */
  function Next(t: Theme): (n: Theme)
    ensures n == match t
                 case Light => Dark
                 case Dark => Synthwave
                 case Synthwave => Light
    ensures Index(n) == (Index(t) + 1) % |THEMES|
  {
    THEMES[(Index(t) + 1) % |THEMES|]
  }
}
