/**
 * The theme provider: the theme read at mount from storage or the system
 * preference, the toggle, and the effect that writes the theme back to
 * storage and to the page's `dark` class.
 */
module Theme {
  import opened Base

  /**
   * The theme is `null` until mounted, then the stored string, which the
   * provider casts to its theme type without checking it.
   */
  type ThemeValue = Option<string>

  /** `toggleTheme`: nothing before mount; `light` becomes `dark` and anything else `light`. */
  function Toggled(theme: ThemeValue): ThemeValue {
    match theme
    case None => None
    case Some(t) => Some(if t == "light" then "dark" else "light")
  }

  /** The theme chosen at mount: a non-empty stored value, or the system preference. */
  function Loaded(saved: Option<string>, prefersDark: bool): string {
    if saved.Some? && saved.value != "" then saved.value
    else if prefersDark then "dark" else "light"
  }

  /**
   * Before mount the toggle does nothing; after it, light and dark swap,
   * toggling twice restores them, and the theme never becomes `null`.
   */
  lemma ToggleSpec(theme: ThemeValue)
    ensures theme.None? ==> Toggled(theme) == None
    ensures theme == Some("light") ==> Toggled(theme) == Some("dark")
    ensures theme == Some("dark") ==> Toggled(theme) == Some("light")
    ensures theme.Some? ==> Toggled(theme).Some? && Toggled(theme).value in {"light", "dark"}
    ensures theme.None? || theme.value in {"light", "dark"} ==> Toggled(Toggled(theme)) == theme
  {
  }

  /**
   * A stored value other than `light` or `dark` is shown as loaded, and the
   * first toggle turns it into `light`: toggling twice does not restore it.
   */
  lemma UnknownStoredTheme()
    ensures Loaded(Some("blue"), true) == "blue"
    ensures Toggled(Some("blue")) == Some("light")
    ensures Toggled(Toggled(Some("blue"))) != Some("blue")
  {
  }

  /** A theme the toggle wrote is read back unchanged at the next mount, whatever the system prefers. */
  lemma ReloadKeepsTheme(theme: ThemeValue, prefersDark: bool)
    requires theme.Some?
    ensures Loaded(Toggled(theme), prefersDark) == Toggled(theme).value
  {
  }

  /** The provider's state with the storage entry and the page class it writes. */
  class ThemeProvider {
    var theme: ThemeValue
    /** The `theme` entry of local storage. */
    var storedTheme: Option<string>
    /** Whether the page root carries the `dark` class. */
    var darkClass: bool

    /** Once mounted, storage and the page class agree with the theme. */
    predicate Applied()
      reads this
    {
      theme.Some? ==> storedTheme == theme && darkClass == (theme.value == "dark")
    }

    /** The first render: no theme yet, storage and page as found. */
    constructor(stored: Option<string>, dark: bool)
      ensures theme == None && storedTheme == stored && darkClass == dark
      ensures Applied()
    {
      theme := None;
      storedTheme := stored;
      darkClass := dark;
    }

    /** The effect that runs whenever the theme changes. */
    method ApplyTheme()
      modifies this
      ensures Applied() && theme == old(theme)
      ensures theme.None? ==> storedTheme == old(storedTheme) && darkClass == old(darkClass)
    {
      if theme == None {
        return;
      }
      storedTheme := theme;
      if theme.value == "dark" {
        darkClass := true;
      } else {
        darkClass := false;
      }
    }

    /** The mount effect, followed by the theme effect. */
    method Mount(prefersDark: bool)
      modifies this
      ensures theme == Some(Loaded(old(storedTheme), prefersDark))
      ensures Applied()
    {
      var saved := storedTheme;
      if saved.Some? && saved.value != "" {
        theme := saved;
      } else {
        theme := Some(if prefersDark then "dark" else "light");
      }
      ApplyTheme();
    }

    /** `toggleTheme`, followed by the theme effect. */
    method ToggleTheme()
      modifies this
      ensures theme == Toggled(old(theme))
      ensures Applied()
      ensures old(theme).None? ==> storedTheme == old(storedTheme) && darkClass == old(darkClass)
    {
      if theme == None {
        return;
      }
      theme := Some(if theme.value == "light" then "dark" else "light");
      ApplyTheme();
    }
  }
}
