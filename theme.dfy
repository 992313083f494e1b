/** The light/dark preference of `contexts/ThemeContext.tsx`. */
module Theme {
  import opened Wrappers
  import opened Storage

  datatype ThemeName = Light | Dark

  /** The text stored under `skillnet_theme`. */
  function NameOf(t: ThemeName): (s: string)
    ensures s == "light" || s == "dark"
  {
    if t == Light then "light" else "dark"
  }

  /** `getInitialTheme`: a saved 'light' or 'dark' wins; otherwise the system preference. */
  function InitialTheme(saved: Option<string>, systemDark: bool): (t: ThemeName)
    ensures saved == Some("light") ==> t == Light
    ensures saved == Some("dark") ==> t == Dark
    ensures saved != Some("light") && saved != Some("dark") ==> t == (if systemDark then Dark else Light)
  {
    if saved == Some("light") then Light
    else if saved == Some("dark") then Dark
    else if systemDark then Dark
    else Light
  }

  /** The toggle updater: `prev === 'light' ? 'dark' : 'light'`. */
  function Toggle(t: ThemeName): (r: ThemeName)
    ensures r != t
  {
    if t == Light then Dark else Light
  }

  /** Toggling twice restores the theme. */
  lemma ToggleInvolution(t: ThemeName)
    ensures Toggle(Toggle(t)) == t
  {
  }

  /** A persisted theme is what the next page load starts with, whatever the system prefers. */
  lemma PersistedThemeRestored(t: ThemeName, systemDark: bool)
    ensures InitialTheme(Some(NameOf(t)), systemDark) == t
  {
  }

  class ThemeProvider {
    const ls: LocalStorage
    var theme: ThemeName
    /** Whether the document element carries the 'dark' class. */
    var darkClass: bool

    /** Mounting: the initial theme, then the effect applies and saves it. `systemDark` is `matchMedia(...).matches`. */
    constructor (storage: LocalStorage, systemDark: bool)
      modifies storage
      ensures ls == storage
      ensures theme == InitialTheme(old(storage.data.theme), systemDark)
      ensures darkClass <==> theme == Dark
      ensures ls.data == old(storage.data).(theme := Some(NameOf(theme)))
    {
      ls := storage;
      theme := InitialTheme(storage.data.theme, systemDark);
      darkClass := false;
      new;
      ApplyTheme();
    }

    /** The effect that runs after every theme change. */
    method ApplyTheme()
      modifies this`darkClass, ls
      ensures darkClass <==> theme == Dark
      ensures ls.data == old(ls.data).(theme := Some(NameOf(theme)))
    {
      if theme == Dark {
        darkClass := true;
      } else {
        darkClass := false;
      }
      ls.data := ls.data.(theme := Some(NameOf(theme)));
    }

    /** `toggleTheme`, followed by its effect. */
    method ToggleTheme()
      modifies this, ls
      ensures theme == Toggle(old(theme))
      ensures darkClass <==> theme == Dark
      ensures ls.data == old(ls.data).(theme := Some(NameOf(theme)))
    {
      theme := Toggle(theme);
      ApplyTheme();
    }
  }
}
