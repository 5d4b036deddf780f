/** The theme context: light or dark colours, starting from the system's
    scheme, restored from and saved to the device store. */
module ThemeContext {
  import opened Wrappers
  import opened Storage

  const StorageKey: string := "@app_theme"
  const UseThemeMessage: string := "useTheme deve ser usado dentro do ThemeProvider"

  /** The colours of one theme. */
  datatype Palette = Palette(background: string, text: string, buttonText: string, titulo: string, borda: string)

  const LightPalette: Palette := Palette("#fff", "#000", "#fff", "#000000", "#000000")
  const DarkPalette: Palette := Palette("#212121", "#5D5D5D", "#ffffff", "#FFFBFBFF", "#5D5D5D")

  /** `systemScheme || "light"`: the system's scheme when it reports a
      non-empty one, else light. */
  function Fallback(systemScheme: Option<string>): (t: string)
    ensures t != ""
    ensures systemScheme.Some? && systemScheme.value != "" ==> t == systemScheme.value
    ensures !(systemScheme.Some? && systemScheme.value != "") ==> t == "light"
  {
    if systemScheme.Some? && systemScheme.value != "" then systemScheme.value else "light"
  }

  /** `toggleTheme`'s update: light becomes dark, anything else light. */
  function Toggled(theme: string): (t: string)
    ensures t == "dark" <==> theme == "light"
    ensures t == "light" <==> theme != "light"
  {
    if theme == "light" then "dark" else "light"
  }

  /** Two toggles from a saved theme come back to it. */
  lemma ToggleTwice(theme: string)
    requires theme == "light" || theme == "dark"
    ensures Toggled(Toggled(theme)) == theme
  {
    assert "dark" != "light";
  }

  /** `colors`: the light palette exactly for the "light" theme. */
  function ColorsFor(theme: string): (p: Palette)
    ensures p == LightPalette <==> theme == "light"
    ensures p == DarkPalette <==> theme != "light"
  {
    if theme == "light" then LightPalette else DarkPalette
  }

  class ThemeProvider {
    var theme: string
    var loaded: bool
    const systemScheme: Option<string>
    const storage: AsyncStorage

    /** A theme is always set: every assignment is light, dark or the
        fallback. */
    predicate HasTheme()
      reads this
    {
      theme != ""
    }

    constructor (systemScheme: Option<string>, storage: AsyncStorage)
      ensures this.systemScheme == systemScheme && this.storage == storage
      ensures theme == Fallback(systemScheme) && !loaded
      ensures HasTheme()
    {
      this.systemScheme := systemScheme;
      this.storage := storage;
      theme := Fallback(systemScheme);
      loaded := false;
    }

    /** `loadTheme`; `readOk` is false when reading the store throws. A saved
        "light" or "dark" is adopted; anything else, or a failed read, gives
        the fallback. `loaded` is set on every path. */
    method LoadTheme(readOk: bool)
      modifies this
      ensures loaded
      ensures var saved := storage.Get(StorageKey);
              if readOk && (saved == Some("light") || saved == Some("dark")) then theme == saved.value
              else theme == Fallback(systemScheme)
      ensures HasTheme()
    {
      if readOk {
        var savedTheme := storage.Get(StorageKey);
        if savedTheme == Some("light") || savedTheme == Some("dark") {
          theme := savedTheme.value;
        } else {
          theme := Fallback(systemScheme);
        }
      } else {
        theme := Fallback(systemScheme);
      }
      loaded := true;
    }

    /** The persist effect: nothing before the load has finished; after it,
        the current theme is written (a failed write is only logged). */
    method PersistTheme(writeOk: bool)
      modifies storage
      ensures !loaded ==> storage.items == old(storage.items)
      ensures loaded && HasTheme() ==>
        storage.items == if writeOk then old(storage.items)[StorageKey := theme] else old(storage.items)
      ensures loaded && !HasTheme() ==> storage.items == old(storage.items)
    {
      if !loaded {
        return;
      }
      if theme != "" {
        storage.SetItem(StorageKey, theme, writeOk);
      }
    }

    /** `toggleTheme`. */
    method ToggleTheme()
      modifies this
      ensures theme == Toggled(old(theme)) && loaded == old(loaded)
      ensures HasTheme()
    {
      theme := if theme == "light" then "dark" else "light";
    }
  }

  /** `useTheme`: the provider's value, or an error outside a provider. */
  function UseTheme(context: Option<ThemeProvider>): (r: Result<ThemeProvider, string>)
    ensures r.Failure? <==> context.None?
    ensures r.Success? ==> r.value == context.value
    ensures r.Failure? ==> r.error == UseThemeMessage
  {
    match context
    case Some(p) => Success(p)
    case None => Failure(UseThemeMessage)
  }
}
