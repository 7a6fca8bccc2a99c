/**
 The three toggle icons. Each icon previews the theme the next click moves
 to, not the current one.
 */
module Icons {
  import opened Themes

  /** The identifiers of the icon elements: `moon`, `sun` and `synthwave` (the bolt). */
  datatype Icon = Moon | Sun | Bolt

  const ALL_ICONS: set<Icon> := {Moon, Sun, Bolt}

  /** The theme an icon stands for: clicking while it shows moves there. */
  function Depicts(i: Icon): Theme {
    match i
    case Moon => Dark
    case Bolt => Synthwave
    case Sun => Light
  }

  /** An element looked up by id: missing from the page, or present and shown or hidden. */
  datatype Element = Absent | Present(visible: bool)

  /** The three icon elements of the page. */
  datatype IconRow = IconRow(moon: Element, sun: Element, bolt: Element)

  function Get(row: IconRow, i: Icon): Element {
    match i
    case Moon => row.moon
    case Sun => row.sun
    case Bolt => row.bolt
  }

  predicate AllPresent(row: IconRow) {
    row.moon.Present? && row.sun.Present? && row.bolt.Present?
  }

  predicate IsVisible(row: IconRow, i: Icon) {
    Get(row, i).Present? && Get(row, i).visible
  }

  function VisibleIcons(row: IconRow): set<Icon> {
    set i | i in ALL_ICONS && IsVisible(row, i)
  }

  /**
   The row shows the preview for theme `t`: when every element is present,
   exactly the icon depicting the next theme is visible. A row with a
   missing element carries no obligation, since it is never touched.
   */
  predicate ShowsPreview(row: IconRow, t: Theme) {
    AllPresent(row) ==> forall i :: IsVisible(row, i) <==> Depicts(i) == Next(t)
  }

  /**
   `updateThemeIcon(theme)`: if any icon is missing, nothing changes;
   otherwise all three are hidden and then the one for `t` is shown.
   */
  function UpdateThemeIcon(row: IconRow, t: Theme): (r: IconRow)
    ensures !AllPresent(row) ==> r == row
    ensures AllPresent(row) ==> AllPresent(r)
    ensures ShowsPreview(r, t)
  {
    if !AllPresent(row) then row
    else
      var hidden := IconRow(Present(false), Present(false), Present(false));
      if t == Light then hidden.(moon := Present(true))
      else if t == Dark then hidden.(bolt := Present(true))
      else hidden.(sun := Present(true))
  }

  /** With all three icons present, exactly one is visible after an update. */
  lemma ExactlyOneVisible(row: IconRow, t: Theme)
    requires AllPresent(row)
    ensures |VisibleIcons(UpdateThemeIcon(row, t))| == 1
  {
    var r := UpdateThemeIcon(row, t);
    var shown := match t case Light => Moon case Dark => Bolt case Synthwave => Sun;
    assert Depicts(shown) == Next(t);
    assert VisibleIcons(r) == {shown} by {
      forall i | i in ALL_ICONS
        ensures IsVisible(r, i) <==> i == shown
      {
      }
    }
  }

  /**
   Updating a row that already shows the preview of `t` gives the same row:
   the icon update is idempotent.
   */
  lemma UpdateKeepsPreview(row: IconRow, t: Theme)
    requires ShowsPreview(row, t)
    ensures UpdateThemeIcon(row, t) == row
  {
    if AllPresent(row) {
      var r := UpdateThemeIcon(row, t);
      assert IsVisible(r, Moon) == IsVisible(row, Moon);
      assert IsVisible(r, Sun) == IsVisible(row, Sun);
      assert IsVisible(r, Bolt) == IsVisible(row, Bolt);
    }
  }
}
