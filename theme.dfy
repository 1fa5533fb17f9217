/** The site's light/dark theme: the provider's state, its two setters, and
    the hook that reads it. */
module Theme {
  import opened Wrappers

  datatype ThemeName = Light | Dark

  const MissingProvider := "useTheme must be used within a ThemeProvider"

  /** `prev === 'light' ? 'dark' : 'light'`: the other theme. */
  function Toggled(t: ThemeName): (r: ThemeName)
    ensures r != t
  {
    if t == Light then Dark else Light
  }

  /** Toggling twice restores the theme. */
  lemma ToggleTwice(t: ThemeName)
    ensures Toggled(Toggled(t)) == t
  {
  }

  /** `useTheme`: the provided theme, or an error outside a provider. */
  function UseTheme(context: Option<ThemeName>): (r: Result<ThemeName, string>)
    ensures r.Failure? <==> context.None?
    ensures r.Failure? ==> r.error == MissingProvider
    ensures context.Some? ==> r == Success(context.value)
  {
    match context
    case None => Failure(MissingProvider)
    case Some(t) => Success(t)
  }

  class ThemeProvider {
    var theme: ThemeName
    var isHydrated: bool

    /** First render: light, not yet hydrated. */
    constructor ()
      ensures theme == Light && !isHydrated
    {
      theme := Light;
      isHydrated := false;
    }

    /** The theme the provider hands to its children; children are rendered,
        and the context provided, only once hydrated. */
    function ProvidedTheme(): (r: Option<ThemeName>)
      reads this
      ensures r.Some? <==> isHydrated
      ensures r.Some? ==> r.value == theme
    {
      if isHydrated then Some(theme) else None
    }

    /** The mount effect: force the light theme and mark hydrated. */
    method Mount()
      modifies this
      ensures theme == Light && isHydrated
      ensures UseTheme(ProvidedTheme()) == Success(Light)
    {
      theme := Light;
      isHydrated := true;
    }

    method ToggleTheme()
      modifies this
      ensures theme == Toggled(old(theme)) && isHydrated == old(isHydrated)
    {
      theme := if theme == Light then Dark else Light;
    }

    /** The theme becomes exactly `t`, whatever it was, so repeating it changes nothing. */
    method SetTheme(t: ThemeName)
      modifies this
      ensures theme == t && isHydrated == old(isHydrated)
    {
      theme := t;
    }
  }
}
