# Three-way theme switcher, modelled in Dafny

The blog's theme script cycles the page through three themes, `light`, `dark` and
`synthwave`, in that fixed order. It persists the choice in the browser's local
storage under the key `pref-theme`, mirrors it in an in-memory cache and in the root
element's `data-theme` attribute, and toggles three icons (moon, sun, bolt). The
visible icon previews the theme the next click moves to.

The model replaces the browser's globals with one immutable record, `Controller.Page`.
Its fields are:

- the cached theme (`Option<Theme>`);
- local storage (`map<string, string>`, read through `GetItem`, which answers `None` for `null`);
- the document attribute (`Option<string>`);
- the three icon elements (`Icons.IconRow`). Each element is `Absent` or `Present(visible)`.

Each function of the script is a pure transition on that record.

Modules:

- `Options`: `Option`, standing for JavaScript's `null`.
- `Sequences`: `Array.prototype.indexOf` (with its -1 answer) and `includes`.
- `Themes`: the `Theme` enumeration, the ordered `THEMES` list, the names written to storage, parsing of a stored string, and the rotation `Next`.
- `Icons`: the icon elements and `updateThemeIcon`.
- `Controller`: `getTheme`, `applyTheme`, `cycleTheme` and the page-load initialisation.
- `Iteration`: repeated application of a step function. Clicking `n` times is `CycleTheme` iterated `n` times.
- `Cycling`: properties across several clicks and across a reload.

The cache is an `Option<Theme>`, not a string. The script only ever assigns it inside
`applyTheme`, and every caller passes a member of `THEMES`. So its truthiness test
(`if (currentTheme)`) is exactly `cache.Some?`. This also gives the property that the
resolved theme is always a listed one.

## Model

| member | source | states |
|---|---|---|
| Sequences.IndexOf | assets/js/theme.js:61 | the answer is -1 exactly when the element is missing; otherwise it is the position of the first occurrence |
| Sequences.Includes | assets/js/theme.js:15 | true exactly when the element is in the list |
| Themes.Index | assets/js/theme.js:4 | each theme's position in the cycle order, and THEMES holds that theme at that position |
| Themes.IndexIsIndexOf | assets/js/theme.js:61 | that position is what `THEMES.indexOf` answers |
| Themes.Name | assets/js/theme.js:4 | the string for a theme is the entry of the name list at the theme's position |
| Themes.Parse | assets/js/theme.js:15 | a stored string is accepted exactly when it is one of the three names, and then it names the theme it yields |
| Themes.ParseName | assets/js/theme.js:15 | writing a theme's name and reading it back gives the same theme |
| Themes.Next | assets/js/theme.js:61-64 | the rotation is light to dark, dark to synthwave, synthwave to light, which is position (i + 1) mod 3 |
| Icons.UpdateThemeIcon | assets/js/theme.js:28-52 | with any icon missing, the row is unchanged; otherwise all icons stay present and exactly the icon depicting the next theme is visible |
| Icons.ExactlyOneVisible | assets/js/theme.js:39-52 | with all icons present, exactly one is visible after an update |
| Icons.UpdateKeepsPreview | assets/js/theme.js:39-52 | updating a row that already previews the theme changes nothing |
| Controller.GetTheme | assets/js/theme.js:8-16 | a cached theme wins over storage; with no cache, a listed stored name is used; an absent or unknown stored string gives light |
| Controller.ResolvedNameIsListed | assets/js/theme.js:15 | the resolved theme's name is always one of the three listed names; this follows from the cache holding a theme rather than a string, not from resolution |
| Controller.ApplyTheme | assets/js/theme.js:19-25 | afterwards attribute, storage and cache all hold the theme and the icons preview its successor; a following getTheme returns it; other storage keys and a row with a missing icon are untouched |
| Controller.CycleTheme | assets/js/theme.js:57-67 | the resolved theme moves to position (i + 1) mod 3, which is the light to dark to synthwave to light table; the page ends consistent; other storage keys are untouched; a fully present icon row stays fully present and a row with a missing icon is untouched |
| Controller.Load | assets/js/theme.js:70-72 | after initialisation the page is consistent, and its theme is the stored one when that is listed (storage then unchanged), light otherwise; storage keys other than the theme key always survive; a fully present icon row stays fully present and previews the next theme, and a row with a missing icon is left as it was |
| Cycling.CycleNAdvances | assets/js/theme.js:57-66 | after n clicks the theme is n places further round the cycle |
| Cycling.CycleNConsistent | assets/js/theme.js:57-66 | consistency of cache, storage, attribute and icons holds after any number of clicks from a consistent page |
| Iteration.IterateAdd | assets/js/theme.js:57-66 | a clicks followed by b clicks equal a + b clicks (stated for any step function; `CycleN` instantiates it with `CycleTheme`) |
| Iteration.IterateFixPoint | assets/js/theme.js:57-66 | a page that three clicks bring back is brought back by every multiple of three clicks (stated for any step function and period) |
| Cycling.CycleNStore | assets/js/theme.js:22 | after clicks, storage differs from before only in the theme key, which holds the current name |
| Cycling.CycleNIcons | assets/js/theme.js:24 | after clicks, the icon row is one update of the original row for the final theme |
| Cycling.ThreeClicksRestorePage | assets/js/theme.js:57-66 | three clicks on a consistent page give back the identical page: same theme, storage, attribute and icons |
| Cycling.FullTurnsRestorePage | assets/js/theme.js:57-66 | every multiple of three clicks is the identity on a consistent page |
| Cycling.ReloadRestoresTheme | assets/js/theme.js:13-15 | reloading (cache cleared, storage kept) resolves to the theme active before, and storage is unchanged |
| Cycling.LoadShowsOneIcon | assets/js/theme.js:70-72 | whatever storage holds, a load with all three icons present leaves exactly one visible, the icon depicting the theme after the loaded one |
| Cycling.FirstVisitScenario | assets/js/theme.js:70-72 | empty storage loads light with the moon; a click gives dark, stores "dark" and shows the bolt; a reload comes back dark with the bolt |

## Left out

- Console diagnostics (`console.log`, `console.error`): they have no effect on the state.
- The `DOMContentLoaded` listener and the click wiring (lines 75-84). This is browser event plumbing. A click is modelled as one `CycleTheme` call. A missing `theme-toggle` element means no click ever reaches it, so the page is simply left as loaded.
- The real `localStorage` and `document`. Durability, origin scoping, quota errors and other tabs are not modelled. Storage is a plain map, and the attribute is a plain field.
- The style values themselves: `display: none` and `display: block` are modelled as a visible flag. The CSS keyed off `data-theme` lies outside the script.
- `applyTheme` with a string outside the list: the script never does this, and the model's `Theme` type rules it out.
