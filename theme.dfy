/**
 * The page theme: the `dark` class on the root element and the preference
 * stored under the `theme` key of local storage.
 */
module Theme {
  import opened Options

  const DarkTheme: string := "dark"
  const LightTheme: string := "light"

  /**
   * The theme applied on load: the stored value, unless it is missing or
   * empty (both falsy for `||`), in which case dark.
   */
  function InitialTheme(saved: Option<string>): (t: string)
    ensures t != ""
    ensures saved.Some? && saved.value != "" ==> t == saved.value
    ensures t == DarkTheme <==> saved.None? || saved.value == "" || saved.value == DarkTheme
  {
    match saved
    case None => DarkTheme
    case Some(s) => if s == "" then DarkTheme else s
  }

  /** The theme the toggle button applies, given whether the page is dark now. */
  function ToggledTheme(isDark: bool): (t: string)
    ensures t == DarkTheme || t == LightTheme
    ensures t == DarkTheme <==> !isDark
  {
    if isDark then LightTheme else DarkTheme
  }

  /** Toggling twice from a page that is dark (or not) applies a theme that is dark (or not) again. */
  lemma ToggleTwiceRestoresDarkness(isDark: bool)
    ensures (ToggledTheme(ToggledTheme(isDark) == DarkTheme) == DarkTheme) == isDark
  {
  }

  class ThemeState {
    /** Whether the root element carries the `dark` class. */
    var dark: bool
    /** The value stored under the `theme` key; None when nothing is stored. */
    var stored: Option<string>

    /** Once a theme has been applied, the class agrees with the stored value. */
    predicate Valid()
      reads this
    {
      stored.Some? && dark == (stored.value == DarkTheme)
    }

    /** Load: apply the stored theme, or dark when there is none. */
    constructor (saved: Option<string>)
      ensures Valid()
      ensures stored == Some(InitialTheme(saved))
      ensures dark <==> saved.None? || saved.value == "" || saved.value == DarkTheme
    {
      dark := false;
      stored := saved;
      new;
      ApplyTheme(InitialTheme(saved));
    }

    /** Sets the dark class exactly for "dark" and stores the theme as given. */
    method ApplyTheme(t: string)
      modifies this
      ensures Valid()
      ensures dark == (t == DarkTheme) && stored == Some(t)
    {
      dark := t == DarkTheme;
      stored := Some(t);
    }

    /** Click on the theme button: read the class, apply the other theme. */
    method Toggle()
      modifies this
      ensures Valid()
      ensures dark == !old(dark)
      ensures stored == Some(if old(dark) then LightTheme else DarkTheme)
    {
      var isDark := dark;
      ApplyTheme(ToggledTheme(isDark));
    }
  }

  /** A stored "blue" shows the light look; two toggles store "dark" then "light", restoring the look but not the value. */
  method UnknownStoredTheme() {
    var page := new ThemeState(Some("blue"));
    assert !page.dark;
    page.Toggle();
    page.Toggle();
    assert !page.dark && page.stored == Some(LightTheme);
  }
}
