/**
 The theme controller: resolution, application, advance and the page-load
 sequence, over an explicit page state in place of the browser's globals.
 */
module Controller {
  import opened Options
  import opened Themes
  import opened Icons

  /** The storage key of the persisted preference. */
  const THEME_KEY: string := "pref-theme"

  /**
   Everything the script reads or writes: the in-memory cached theme, the
   origin's local storage, the root element's `data-theme` attribute, and
   the three icon elements.
   */
  datatype Page = Page(
    cache: Option<Theme>,
    store: map<string, string>,
    attribute: Option<string>,
    icons: IconRow)

  /** `localStorage.getItem(key)`: null for a missing key. */
  function GetItem(store: map<string, string>, key: string): Option<string> {
    if key in store then Some(store[key]) else None
  }

  function Stored(p: Page): Option<string> {
    GetItem(p.store, THEME_KEY)
  }

  /**
   `getTheme()`: the cached theme if there is one, else the stored string
   if it names a theme, else light. Reads only; writes nothing.
   */
  function GetTheme(p: Page): (t: Theme)
    ensures p.cache.Some? ==> t == p.cache.value
    ensures p.cache.None? && Stored(p).Some? && Stored(p).value in THEME_NAMES ==>
              Name(t) == Stored(p).value
    ensures p.cache.None? && (Stored(p).None? || Stored(p).value !in THEME_NAMES) ==>
              t == Light
  {
    match p.cache
    case Some(c) => c
    case None =>
      match Stored(p)
      case None => Light
      case Some(s) =>
        match Parse(s)
        case Some(t) => t
        case None => Light
  }

  /**
   The resolved theme's name is one of the listed names. This holds of every
   theme value and owes nothing to resolution itself: the guarantee lies in
   the cache holding a `Theme` rather than an arbitrary string, which matches
   the script since only `applyTheme` assigns it, always with a listed name.
   */
  lemma ResolvedNameIsListed(p: Page)
    ensures Name(GetTheme(p)) in THEME_NAMES
  {
  }

  /**
   The three copies of the active theme agree and the icons preview the
   next one. This is what page load establishes and every click keeps.
   */
  predicate Consistent(p: Page) {
    && p.cache.Some?
    && Stored(p) == Some(Name(p.cache.value))
    && p.attribute == Some(Name(p.cache.value))
    && ShowsPreview(p.icons, p.cache.value)
  }

  /**
   `applyTheme(theme)`: sets the attribute, persists the name, caches the
   theme and refreshes the icons. Storage keys other than THEME_KEY are left
   alone, and a later `getTheme()` answers `t`.
   */
  function ApplyTheme(p: Page, t: Theme): (q: Page)
    ensures GetTheme(q) == t
    ensures Consistent(q) && q.cache == Some(t)
    ensures forall k :: k != THEME_KEY ==> GetItem(q.store, k) == GetItem(p.store, k)
    ensures !AllPresent(p.icons) ==> q.icons == p.icons
    ensures AllPresent(p.icons) <==> AllPresent(q.icons)
  {
    var withAttribute := p.(attribute := Some(Name(t)));
    var persisted := withAttribute.(store := p.store[THEME_KEY := Name(t)]);
    var cached := persisted.(cache := Some(t));
    cached.(icons := UpdateThemeIcon(p.icons, t))
  }

  /**
   `cycleTheme()`: resolves the active theme and applies the one after it
   in THEMES, at index (i + 1) mod 3.
   */
  function CycleTheme(p: Page): (q: Page)
    ensures Index(GetTheme(q)) == (Index(GetTheme(p)) + 1) % |THEMES|
    ensures GetTheme(q) == Next(GetTheme(p))
    ensures Consistent(q)
    ensures forall k :: k != THEME_KEY ==> GetItem(q.store, k) == GetItem(p.store, k)
    ensures !AllPresent(p.icons) ==> q.icons == p.icons
    ensures AllPresent(p.icons) <==> AllPresent(q.icons)
  {
    var current := GetTheme(p);
    var nextIndex := (Index(current) + 1) % |THEMES|;
    ApplyTheme(p, THEMES[nextIndex])
  }

  /**
   The script's top-level initialisation on page load: with nothing cached
   yet, resolve the theme from storage and apply it.
   */
  function Load(store: map<string, string>, attribute: Option<string>, icons: IconRow): (p: Page)
    ensures Consistent(p)
    ensures var s := GetItem(store, THEME_KEY);
            s.Some? && s.value in THEME_NAMES ==> Name(GetTheme(p)) == s.value && p.store == store
    ensures var s := GetItem(store, THEME_KEY);
            s.None? || s.value !in THEME_NAMES ==> GetTheme(p) == Light
    ensures forall k :: k != THEME_KEY ==> GetItem(p.store, k) == GetItem(store, k)
    ensures !AllPresent(icons) ==> p.icons == icons
    ensures AllPresent(icons) <==> AllPresent(p.icons)
  {
    var unloaded := Page(None, store, attribute, icons);
    var initialTheme := GetTheme(unloaded);
    ApplyTheme(unloaded, initialTheme)
  }
}
