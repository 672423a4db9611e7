/** The fixed catalog of twelve stylesheets that both display controllers
    rotate through, the allow-list that gates every stylesheet change, and the
    wrap-around index arithmetic. */
module ThemeCatalog {
  import opened Seqs

  /** `this.themes`, in catalog order. */
  const Themes: seq<string> := [
    "style.css",
    "styles/dark.css",
    "styles/ocean.css",
    "styles/sunset.css",
    "styles/forest.css",
    "styles/cyberpunk.css",
    "styles/galaxy.css",
    "styles/aurora.css",
    "styles/vintage.css",
    "styles/minimal.css",
    "styles/neon.css",
    "styles/candy.css"
  ]

  /** The separate allow-list literal inside `validateStylePath`. */
  const ValidPaths: seq<string> := [
    "style.css",
    "styles/dark.css",
    "styles/ocean.css",
    "styles/sunset.css",
    "styles/forest.css",
    "styles/cyberpunk.css",
    "styles/galaxy.css",
    "styles/aurora.css",
    "styles/vintage.css",
    "styles/minimal.css",
    "styles/neon.css",
    "styles/candy.css"
  ]

  /** Display names of `getThemeName`, parallel to `Themes`. */
  const ThemeNames: seq<string> := [
    "Original", "Dark", "Ocean", "Sunset", "Forest", "Cyberpunk",
    "Galaxy", "Aurora", "Vintage", "Minimal", "Neon", "Candy"
  ]

  /** The `localStorage` keys both controllers persist their choices under. */
  const SelectedStyleKey: string := "selectedStyle"
  const AutoRotateKey: string := "autoRotateThemes"

  /** The text `localStorage.setItem` stores for a boolean. */
  function BoolText(b: bool): string {
    if b then "true" else "false"
  }

  /** `localStorage.getItem(key) === 'true'` */
  predicate StoredTrue(storage: map<string, string>, key: string) {
    key in storage && storage[key] == "true"
  }

  /** The page elements a theme controller reads and writes: whether the
      style dropdown, the main stylesheet link and the auto-rotate checkbox
      exist, the link's `href`, the dropdown's value and the checkbox state. */
  datatype Page = Page(
    hasDropdown: bool,
    hasMainStyle: bool,
    hasCheckbox: bool,
    href: string,
    dropdownValue: string,
    checked: bool)
  {
    /** Both elements a stylesheet switch needs are on the page. */
    predicate CanApply() {
      hasDropdown && hasMainStyle
    }
  }

  /** The stylesheet every failed switch reverts to. */
  const DefaultTheme: string := "style.css"

  /** `validateStylePath`: `validPaths.includes(stylePath)`. */
  predicate ValidateStylePath(stylePath: string) {
    stylePath in ValidPaths
  }

  /** The allow-list accepts exactly the catalog entries. */
  lemma ValidateStylePathIsCatalog(p: string)
    ensures ValidateStylePath(p) <==> p in Themes
  {
    assert ValidPaths == Themes;
  }

  /** The twelve catalog entries are pairwise distinct. */
  lemma ThemesDistinct()
    ensures |Themes| == 12
    ensures forall i, j :: 0 <= i < j < |Themes| ==> Themes[i] != Themes[j]
  {
  }

  /** The position of each catalog entry, as a lookup table. */
  const ThemePositions: map<string, int> := map[
    "style.css" := 0, "styles/dark.css" := 1, "styles/ocean.css" := 2,
    "styles/sunset.css" := 3, "styles/forest.css" := 4, "styles/cyberpunk.css" := 5,
    "styles/galaxy.css" := 6, "styles/aurora.css" := 7, "styles/vintage.css" := 8,
    "styles/minimal.css" := 9, "styles/neon.css" := 10, "styles/candy.css" := 11
  ]

  /** `this.themes.indexOf(p)`: the catalog position of `p`, or -1. */
  function CatalogIndex(p: string): (i: int)
    ensures -1 <= i < |Themes|
    ensures i == -1 <==> p !in Themes
    ensures 0 <= i ==> Themes[i] == p
  {
    if p in ThemePositions then ThemePositions[p] else -1
  }

  /** The lookup table computes exactly `indexOf` on the catalog. */
  lemma CatalogIndexIsIndexOf(p: string)
    ensures CatalogIndex(p) == IndexOf(Themes, p)
  {
    ThemesDistinct();
  }

  /** Every catalog position is the index of its own entry. */
  lemma CatalogIndexOfEntry(k: int)
    requires 0 <= k < |Themes|
    ensures CatalogIndex(Themes[k]) == k
  {
    ThemesDistinct();
  }

  /** `getThemeName`: the display name of a catalog path; any other path is
      shown as itself. */
  function ThemeName(themePath: string): (r: string)
    ensures themePath in Themes ==> r == ThemeNames[CatalogIndex(themePath)]
    ensures themePath !in Themes ==> r == themePath
  {
    var i := CatalogIndex(themePath);
    if i >= 0 then ThemeNames[i] else themePath
  }

  /** `(currentThemeIndex + 1) % themes.length`, for the indices the
      controllers ever hold (at least -1, the result of a failed `indexOf`). */
  function NextIndex(i: int): (r: int)
    requires -1 <= i
    ensures 0 <= r < |Themes|
    ensures 0 <= i < |Themes| - 1 ==> r == i + 1
    ensures i == |Themes| - 1 || i == -1 ==> r == 0
  {
    (i + 1) % |Themes|
  }

  /** The index after `n` rotation steps. */
  function Advance(i: int, n: nat): int
    requires -1 <= i
    decreases n
  {
    if n == 0 then i else Advance(NextIndex(i), n - 1)
  }

  /** `n` steps from a valid index land on `(i + n) mod 12`; so twelve steps
      return to the start. */
  lemma {:induction false} AdvanceIsModular(i: int, n: nat)
    requires 0 <= i < |Themes|
    ensures Advance(i, n) == (i + n) % |Themes|
    ensures n == |Themes| ==> Advance(i, n) == i
    decreases n
  {
    if n > 0 {
      AdvanceIsModular(NextIndex(i), n - 1);
      assert (NextIndex(i) + (n - 1)) % 12 == (i + n) % 12 by {
        if i == 11 {
          assert NextIndex(i) + (n - 1) == (i + n) - 12;
        } else {
          assert NextIndex(i) + (n - 1) == i + n;
        }
      }
    }
  }
}
