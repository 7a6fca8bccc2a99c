/**
 Properties of the controller across several operations: repeated clicks,
 the full period of the cycle, and persistence across a page reload.
 */
module Cycling {
  import opened Options
  import opened Themes
  import opened Icons
  import opened Controller
  import opened Iteration

  /** The page after `n` clicks on the toggle. */
  function CycleN(p: Page, n: nat): Page {
    Iterate(CycleTheme, p, n)
  }

  /** After `n` clicks the active theme sits `n` places further round the cycle. */
  lemma {:induction false} CycleNAdvances(p: Page, n: nat)
    ensures Index(GetTheme(CycleN(p, n))) == (Index(GetTheme(p)) + n) % |THEMES|
  {
    if n > 0 {
      var prev := CycleN(p, n - 1);
      CycleNAdvances(p, n - 1);
      assert CycleN(p, n) == CycleTheme(prev);
      var x := Index(GetTheme(p)) + n - 1;
      assert Index(GetTheme(prev)) == x % 3;
      assert (x % 3 + 1) % 3 == (x + 1) % 3;
    }
  }

  /** Any positive number of clicks leaves the page consistent. */
  lemma CycleNConsistent(p: Page, n: nat)
    requires Consistent(p) || n > 0
    ensures Consistent(CycleN(p, n))
  {
  }

  /** A page state is fixed by a full turn: three clicks give back the same page. */
  lemma ThreeClicksRestorePage(p: Page)
    requires Consistent(p)
    ensures CycleN(p, 3) == p
  {
    var t := p.cache.value;
    var q := CycleN(p, 3);
    CycleNAdvances(p, 3);
    assert GetTheme(q) == t by {
      assert Index(GetTheme(q)) == Index(t);
    }
    assert q.store == p.store by {
      assert THEME_KEY in p.store && p.store[THEME_KEY] == Name(t);
      CycleNStore(p, 3);
    }
    assert q.icons == p.icons by {
      CycleNIcons(p, 3);
      UpdateKeepsPreview(p.icons, t);
    }
  }

  /** After clicks, storage holds the new name under THEME_KEY and nothing else moved. */
  lemma {:induction false} CycleNStore(p: Page, n: nat)
    requires n > 0
    ensures CycleN(p, n).store == p.store[THEME_KEY := Name(GetTheme(CycleN(p, n)))]
  {
    assert CycleN(p, n) == CycleTheme(CycleN(p, n - 1));
    if n > 1 {
      CycleNStore(p, n - 1);
    }
  }

  /** Clicking several times updates the icons once for the final theme. */
  lemma {:induction false} CycleNIcons(p: Page, n: nat)
    requires n > 0
    ensures CycleN(p, n).icons == UpdateThemeIcon(p.icons, GetTheme(CycleN(p, n)))
  {
    assert CycleN(p, n) == CycleTheme(CycleN(p, n - 1));
    if n > 1 {
      CycleNIcons(p, n - 1);
      var t := GetTheme(CycleN(p, n - 1));
      var u := GetTheme(CycleN(p, n));
      assert UpdateThemeIcon(UpdateThemeIcon(p.icons, t), u) == UpdateThemeIcon(p.icons, u);
    }
  }

  /** Every multiple of three clicks is the identity on a consistent page. */
  lemma FullTurnsRestorePage(p: Page, k: nat)
    requires Consistent(p)
    ensures CycleN(p, 3 * k) == p
  {
    ThreeClicksRestorePage(p);
    IterateFixPoint(CycleTheme, p, 3, k);
  }

  /**
   Persistence round-trip: reloading the page (cache gone, storage kept,
   attribute and icons whatever the new page holds) resolves to the theme
   that was active before, and leaves storage as it was.
   */
  lemma ReloadRestoresTheme(p: Page, attribute: Option<string>, icons: IconRow)
    requires Consistent(p)
    ensures GetTheme(Load(p.store, attribute, icons)) == p.cache.value
    ensures Load(p.store, attribute, icons).store == p.store
  {
  }

  /**
   Whatever storage holds, a page load with all three icons present ends
   with exactly one of them visible, the one previewing the next theme.
   */
  lemma LoadShowsOneIcon(store: map<string, string>, attribute: Option<string>, icons: IconRow)
    requires AllPresent(icons)
    ensures var p := Load(store, attribute, icons);
            && AllPresent(p.icons)
            && |VisibleIcons(p.icons)| == 1
            && forall i :: IsVisible(p.icons, i) <==> Depicts(i) == Next(GetTheme(p))
  {
    var p := Load(store, attribute, icons);
    ExactlyOneVisible(icons, GetTheme(p));
  }

  /**
   A first visit with nothing stored: load shows light with the moon, one
   click moves to dark with the bolt and persists "dark", and a reload
   comes back dark with the bolt.
   */
  lemma FirstVisitScenario(icons: IconRow)
    requires AllPresent(icons)
    ensures var loaded := Load(map[], None, icons);
            && GetTheme(loaded) == Light
            && VisibleIcons(loaded.icons) == {Moon}
            && var clicked := CycleTheme(loaded);
               && GetTheme(clicked) == Dark
               && Stored(clicked) == Some("dark")
               && VisibleIcons(clicked.icons) == {Bolt}
               && var reloaded := Load(clicked.store, clicked.attribute, clicked.icons);
                  && GetTheme(reloaded) == Dark
                  && VisibleIcons(reloaded.icons) == {Bolt}
  {
  }
}
