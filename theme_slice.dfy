/** The `theme` slice of src/redux/slice/theme.slice.ts: one flag, `darkMode`. */
module ThemeSlice {

  class ThemeState {
    var darkMode: bool

    /** The initial state is light. */
    constructor ()
      ensures !darkMode
    {
      darkMode := false;
    }

    /** `toggleTheme` */
    method ToggleTheme()
      modifies this
      ensures darkMode == !old(darkMode)
    {
      darkMode := !darkMode;
    }

    /** `setTheme(b)`, whatever the previous value. */
    method SetTheme(b: bool)
      modifies this
      ensures darkMode == b
    {
      darkMode := b;
    }
  }

  /** Two toggles restore the theme. */
  method ToggleTwice(s: ThemeState)
    modifies s
    ensures s.darkMode == old(s.darkMode)
  {
    s.ToggleTheme();
    s.ToggleTheme();
  }

  /** Setting the same theme twice is setting it once. */
  method SetThemeTwice(s: ThemeState, b: bool) returns (afterFirst: bool)
    modifies s
    ensures afterFirst == b && s.darkMode == afterFirst
  {
    s.SetTheme(b);
    afterFirst := s.darkMode;
    s.SetTheme(b);
  }

  /** A toggle after `setTheme(b)` gives the other theme. */
  method SetThenToggle(s: ThemeState, b: bool)
    modifies s
    ensures s.darkMode == !b
  {
    s.SetTheme(b);
    s.ToggleTheme();
  }
}
