/** The layout's pure choices: which theme and font name are in effect, and
    which CSS class the effective font resolves to. */
module FontSelection {
  import opened Fonts

  /** JavaScript truthiness of a string: only the empty string is falsy. */
  predicate Truthy(s: string) {
    s != ""
  }

  /** `isCrazyMode && active ? active : preferred`, used for the theme (with
      `activeThemeId` and `theme`) and for the font (with `activeFontName` and
      `font`). */
  function Effective(isCrazyMode: bool, active: string, preferred: string): (r: string)
    ensures r == active || r == preferred
    ensures isCrazyMode && Truthy(active) ==> r == active
    ensures !isCrazyMode || !Truthy(active) ==> r == preferred
  {
    if isCrazyMode && Truthy(active) then active else preferred
  }

  /** The crazy-mode value is in effect exactly when crazy mode is on and the
      value is truthy, unless it happens to equal the preference. */
  lemma EffectiveOverrideIff(isCrazyMode: bool, active: string, preferred: string)
    requires active != preferred
    ensures Effective(isCrazyMode, active, preferred) == active <==> isCrazyMode && Truthy(active)
    ensures Effective(isCrazyMode, active, preferred) == preferred <==> !(isCrazyMode && Truthy(active))
  {
  }

  /** The index of the first entry named `name` (what `Array.prototype.find`
      with `name === fontObj.name` selects), or None when there is none. */
  function FirstMatch(catalog: Catalog, name: string): (r: Option<nat>)
    ensures r.Some? ==> r.value < |catalog| && catalog[r.value].name == name
    ensures r.Some? ==> forall j :: 0 <= j < r.value ==> catalog[j].name != name
    ensures r.None? <==> forall j :: 0 <= j < |catalog| ==> catalog[j].name != name
    decreases |catalog|
  {
    if catalog == [] then None
    else if catalog[0].name == name then Some(0)
    else
      match FirstMatch(catalog[1..], name)
      case None => None
      case Some(i) => Some(i + 1)
  }

  /** The memoised `fontClassName`: the class of the first loaded entry whose
      name is the effective font, else the default font's class. */
  function FontClassName(fontsModule: Option<Catalog>, effectiveFont: string, defaultClassName: string): (r: string)
    ensures fontsModule.None? ==> r == defaultClassName
    ensures fontsModule.Some? && FirstMatch(fontsModule.value, effectiveFont).Some? ==>
      r == fontsModule.value[FirstMatch(fontsModule.value, effectiveFont).value].className
    ensures fontsModule.Some? && (forall j :: 0 <= j < |fontsModule.value| ==> fontsModule.value[j].name != effectiveFont) ==>
      r == defaultClassName
  {
    if fontsModule.Some? then
      match FirstMatch(fontsModule.value, effectiveFont)
      case Some(i) => fontsModule.value[i].className
      case None => defaultClassName
    else
      defaultClassName
  }

  /** The class is always the default's or that of a catalog entry carrying
      the effective font's name. */
  lemma ClassNameIsDefaultOrMatching(fontsModule: Option<Catalog>, effectiveFont: string, defaultClassName: string)
    ensures var r := FontClassName(fontsModule, effectiveFont, defaultClassName);
      r == defaultClassName ||
      (fontsModule.Some? &&
       exists i :: 0 <= i < |fontsModule.value| && fontsModule.value[i].name == effectiveFont && fontsModule.value[i].className == r)
  {
  }

  /** With duplicate names the earliest entry wins: an entry at index i named
      like the font decides the class unless an earlier one does. */
  lemma FirstOfDuplicatesWins(catalog: Catalog, i: nat, effectiveFont: string, defaultClassName: string)
    requires i < |catalog| && catalog[i].name == effectiveFont
    requires forall j :: 0 <= j < i ==> catalog[j].name != effectiveFont
    ensures FontClassName(Some(catalog), effectiveFont, defaultClassName) == catalog[i].className
  {
    var m := FirstMatch(catalog, effectiveFont);
    assert m.Some?;
    assert !(m.value < i) && !(i < m.value);
  }

  /** Entries after a match, and non-matching entries before the catalog, do
      not change the class. */
  lemma {:induction false} LookupIgnoresOtherEntries(before: Catalog, catalog: Catalog, after: Catalog, effectiveFont: string, defaultClassName: string)
    requires forall j :: 0 <= j < |before| ==> before[j].name != effectiveFont
    requires FirstMatch(catalog, effectiveFont).Some?
    ensures FontClassName(Some(before + catalog + after), effectiveFont, defaultClassName)
         == FontClassName(Some(catalog), effectiveFont, defaultClassName)
  {
    var i := FirstMatch(catalog, effectiveFont).value;
    var whole := before + catalog + after;
    assert whole[|before| + i] == catalog[i];
    FirstOfDuplicatesWins(whole, |before| + i, effectiveFont, defaultClassName);
  }

  /** The class the layout renders with, from the stores' values. */
  function LayoutFontClass(isCrazyMode: bool, activeFontName: string, font: string,
                           fontsModule: Option<Catalog>, defaultClassName: string): (r: string)
    ensures !(isCrazyMode && Truthy(activeFontName)) ==> r == FontClassName(fontsModule, font, defaultClassName)
    ensures isCrazyMode && Truthy(activeFontName) ==> r == FontClassName(fontsModule, activeFontName, defaultClassName)
  {
    FontClassName(fontsModule, Effective(isCrazyMode, activeFontName, font), defaultClassName)
  }

  /** In crazy mode, a non-empty active font name that is in the loaded
      catalog decides the class, whatever the user's own preference is. */
  lemma CrazyFontWinsWhenLoaded(activeFontName: string, font1: string, font2: string,
                                catalog: Catalog, defaultClassName: string)
    requires Truthy(activeFontName) && FirstMatch(catalog, activeFontName).Some?
    ensures LayoutFontClass(true, activeFontName, font1, Some(catalog), defaultClassName)
         == LayoutFontClass(true, activeFontName, font2, Some(catalog), defaultClassName)
         == catalog[FirstMatch(catalog, activeFontName).value].className
  {
  }
}
