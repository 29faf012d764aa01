/** The theme provider of src/components/ThemeContext/ThemeContext.tsx: `darkMode`
    is loaded from the stored "theme" entry, written back after every change, and
    flipped by `toggleTheme`; `useThemeContext` refuses to run outside a provider. */
module ThemeContext {
  import opened Common
  import opened Browser

  const ThemeKey := "theme"

  /** The initial `darkMode` from the stored entry: dark only for exactly "dark". */
  function InitialDarkMode(stored: Option<string>): (dark: bool)
    ensures dark <==> stored == Some("dark")
  {
    stored == Some("dark")
  }

  /** The value the effect stores. */
  function ThemeValue(darkMode: bool): (v: string)
    ensures v == "dark" || v == "light"
    ensures v == "dark" <==> darkMode
  {
    if darkMode then "dark" else "light"
  }

  /** Storing the mode and loading it again gives the same mode. */
  lemma PersistReloadRoundTrip(store: map<string, string>, darkMode: bool)
    ensures InitialDarkMode(Lookup(store[ThemeKey := ThemeValue(darkMode)], ThemeKey)) == darkMode
  {
  }

  class ThemeProvider {
    const storage: LocalStorage
    var darkMode: bool

    /** Mount: load the stored mode, then the effect writes it back. */
    constructor (storage: LocalStorage)
      modifies storage
      ensures this.storage == storage
      ensures darkMode == InitialDarkMode(Lookup(old(storage.items), ThemeKey))
      ensures storage.items == old(storage.items)[ThemeKey := ThemeValue(darkMode)]
    {
      this.storage := storage;
      darkMode := storage.GetItem(ThemeKey) == Some("dark");
      new;
      storage.SetItem(ThemeKey, if darkMode then "dark" else "light");
    }

    /** `toggleTheme`, followed by the effect that runs on the change. */
    method ToggleTheme()
      modifies this, storage
      ensures darkMode == !old(darkMode)
      ensures storage.items == old(storage.items)[ThemeKey := ThemeValue(darkMode)]
    {
      darkMode := !darkMode;
      storage.SetItem(ThemeKey, if darkMode then "dark" else "light");
    }

    /** The stored entry agrees with the mode. */
    predicate Persisted()
      reads this, storage
    {
      Lookup(storage.items, ThemeKey) == Some(ThemeValue(darkMode))
    }
  }

  /** Two toggles restore the mode, and the stored entry still agrees with it. */
  method ToggleTwice(p: ThemeProvider)
    modifies p, p.storage
    ensures p.darkMode == old(p.darkMode) && p.Persisted()
  {
    p.ToggleTheme();
    p.ToggleTheme();
  }

  /** What a component reads from the context. */
  datatype ThemeContextValue = ThemeContextValue(darkMode: bool)

  /** The outcome of `useThemeContext`: the provided value, or the error it throws. */
  datatype HookResult = Provided(value: ThemeContextValue) | Thrown(message: string)

  function UseThemeContext(context: Option<ThemeContextValue>): (r: HookResult)
    ensures r.Provided? <==> context.Some?
    ensures r.Provided? ==> r.value == context.value
    ensures r.Thrown? ==> r.message == "useThemeContext must be used within a ThemeProvider"
  {
    if context.None? then Thrown("useThemeContext must be used within a ThemeProvider") else Provided(context.value)
  }
}
