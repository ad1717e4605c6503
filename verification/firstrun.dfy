/**
 * The first-run storage wipe done once at start-up: unless the
 * `mitra_demo_cleared` flag is set, every key is removed, a saved theme is
 * written back under `mitra_theme`, and the flag is set.
 */
module FirstRun {
  import opened Wrappers
  import opened Storage

  const FlagKey := "mitra_demo_cleared"
  /** The key the theme provider reads and writes. */
  const ThemeKey := "mitra-theme"
  const LegacyThemeKey := "mitra_theme"

  /** `getItem('mitra-theme') || getItem('mitra_theme')`, as a condition and as a value. */
  function SavedTheme(items: Items): (t: Option<Value>)
    ensures t.Some? <==> Has(items, ThemeKey) || Has(items, LegacyThemeKey)
    ensures Has(items, ThemeKey) ==> t == Some(items[ThemeKey])
    ensures !Has(items, ThemeKey) && Has(items, LegacyThemeKey) ==> t == Some(items[LegacyThemeKey])
  {
    if Has(items, ThemeKey) then Some(items[ThemeKey])
    else if Has(items, LegacyThemeKey) then Some(items[LegacyThemeKey])
    else None
  }

  /** The storage the start-up routine leaves, as written. */
  function AfterFirstRun(items: Items): (r: Items)
    ensures Has(items, FlagKey) ==> r == items
    ensures !Has(items, FlagKey) ==>
      && r.Keys <= {LegacyThemeKey, FlagKey}
      && FlagKey in r && r[FlagKey] == Text("true")
      && (LegacyThemeKey in r <==> SavedTheme(items).Some?)
      && (LegacyThemeKey in r ==> r[LegacyThemeKey] == SavedTheme(items).value)
  {
    if Has(items, FlagKey) then items
    else
      var cleared: Items := map[];
      var themed := if SavedTheme(items).Some? then cleared[LegacyThemeKey := SavedTheme(items).value] else cleared;
      themed[FlagKey := Text("true")]
  }

  /** Without a saved theme only the flag is left. */
  lemma NoThemeLeavesOnlyFlag(items: Items)
    requires !Has(items, FlagKey) && SavedTheme(items).None?
    ensures AfterFirstRun(items) == map[FlagKey := Text("true")]
  {
  }

  /** Running the routine twice leaves the same storage as running it once. */
  lemma FirstRunIdempotent(items: Items)
    ensures AfterFirstRun(AfterFirstRun(items)) == AfterFirstRun(items)
  {
    assert Has(AfterFirstRun(items), FlagKey);
  }

  /** The start-up routine, step by step on the browser's storage. */
  method ClearOnFirstRun(storage: BrowserStorage)
    modifies storage
    ensures storage.items == AfterFirstRun(old(storage.items))
  {
    if !Has(storage.items, FlagKey) {
      var saved := SavedTheme(storage.items);
      storage.Clear();
      if saved.Some? {
        storage.SetItem(LegacyThemeKey, saved.value);
      }
      storage.SetItem(FlagKey, Text("true"));
    }
  }

  /**
   * As written, a theme saved under the provider's own key does not survive
   * the wipe: it is copied to `mitra_theme`, which the provider never reads.
   */
  lemma ProviderThemeLostAsWritten()
    ensures var before := map[ThemeKey := Text("dark")];
      ThemeKey !in AfterFirstRun(before) && AfterFirstRun(before)[LegacyThemeKey] == Text("dark")
  {
    var before := map[ThemeKey := Text("dark")];
    assert Has(before, ThemeKey) && !Has(before, FlagKey);
  }

  /** The wipe the listed keys to keep call for: both theme keys survive as they were. */
  function AfterFirstRunKeepingTheme(items: Items): (r: Items)
    ensures Has(items, FlagKey) ==> r == items
    ensures !Has(items, FlagKey) ==>
      && r.Keys <= {ThemeKey, LegacyThemeKey, FlagKey}
      && FlagKey in r && r[FlagKey] == Text("true")
  {
    if Has(items, FlagKey) then items
    else
      var kept := map k | k in items && k in {ThemeKey, LegacyThemeKey} :: items[k];
      kept[FlagKey := Text("true")]
  }

  /** With the correction the provider finds its theme after the wipe, and the wipe stays idempotent. */
  lemma KeepingThemePreservesProviderTheme(items: Items)
    ensures ThemeKey in items ==>
      ThemeKey in AfterFirstRunKeepingTheme(items) && AfterFirstRunKeepingTheme(items)[ThemeKey] == items[ThemeKey]
    ensures AfterFirstRunKeepingTheme(AfterFirstRunKeepingTheme(items)) == AfterFirstRunKeepingTheme(items)
  {
    assert Has(AfterFirstRunKeepingTheme(items), FlagKey);
  }
}
