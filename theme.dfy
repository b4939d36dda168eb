/** The mobile app's light/dark theme: a flag, its toggle and the palette it selects. */
module Theme {

  /** The six colours every screen styles itself with; both palettes have the same keys by construction. */
  datatype Palette = Palette(primary: string, background: string, surface: string,
                             text: string, textSecondary: string, border: string)

  const LIGHT_COLORS := Palette("#dc2626", "#ffffff", "#f8f9fa", "#1f2937", "#6b7280", "#e5e7eb")
  const DARK_COLORS := Palette("#ef4444", "#111827", "#1f2937", "#f9fafb", "#d1d5db", "#374151")

  /** `isDark ? darkColors : lightColors`. */
  function ColorsFor(isDark: bool): (r: Palette)
    ensures r == DARK_COLORS <==> isDark
    ensures r == LIGHT_COLORS <==> !isDark
  {
    assert LIGHT_COLORS.primary[2] != DARK_COLORS.primary[2];
    if isDark then DARK_COLORS else LIGHT_COLORS
  }

  /** What `useTheme` hands to a screen; the toggle function is left out. */
  datatype ThemeContext = ThemeContext(isDark: bool, colors: Palette)

  /** The context a screen sees outside any provider. */
  const DEFAULT_CONTEXT := ThemeContext(false, LIGHT_COLORS)

  /** The default context is the provider's initial one. */
  lemma DefaultContextIsInitial()
    ensures DEFAULT_CONTEXT == ThemeContext(false, ColorsFor(false))
  {
  }

  class ThemeProvider {
    var isDark: bool

    constructor ()
      ensures !isDark && Context() == DEFAULT_CONTEXT
    {
      isDark := false;
    }

    /** The value the provider passes down. */
    function Context(): ThemeContext
      reads this
    {
      ThemeContext(isDark, ColorsFor(isDark))
    }

    /** `toggleTheme`: flips the flag, and with it the palette, so a second toggle restores both. */
    method Toggle()
      modifies this
      ensures isDark == !old(isDark)
      ensures Context().colors != old(Context().colors)
    {
      isDark := !isDark;
    }
  }
}
