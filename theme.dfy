/** The colour theme (`ThemeContext`): the provider's theme state, the
    start-up choice between a saved theme and the system preference, the
    effect that applies the theme to the document root and saves it, and
    `useTheme`'s refusal outside a mounted provider. The theme is saved
    under the storage key `taskflow-theme`. */
module Theme {
  import opened Wrappers

  const Light: string := "light"
  const Dark: string := "dark"
  const OutsideProvider: string := "useTheme must be used within a ThemeProvider"

  /** The declared `Theme` type; the value read back from storage is cast,
      not checked, so the model keeps the raw string. */
  predicate ValidTheme(t: string) {
    t == Light || t == Dark
  }

  /** The toggle: light becomes dark, anything else becomes light. */
  function Toggled(prev: string): (r: string)
    ensures ValidTheme(r)
    ensures r == Dark <==> prev == Light
  {
    if prev == Light then Dark else Light
  }

  /** On the two themes a toggle switches and two toggles restore; any other
      stored string toggles to light, so toggling twice lands on dark. */
  lemma ToggleTwice(t: string)
    ensures ValidTheme(t) ==> Toggled(t) != t && Toggled(Toggled(t)) == t
    ensures !ValidTheme(t) ==> Toggled(t) == Light && Toggled(Toggled(t)) == Dark
  {
  }

  /** The theme chosen at mount: the saved value unless missing or empty,
      else dark exactly when the system prefers dark. */
  function InitialTheme(saved: Option<string>, prefersDark: bool): (t: string)
    ensures saved.Some? && saved.value != [] ==> t == saved.value
    ensures saved.None? || saved.value == [] ==> (t == Dark <==> prefersDark) && ValidTheme(t)
  {
    if saved.Some? && saved.value != [] then saved.value
    else if prefersDark then Dark else Light
  }

  /** The root's classes with both theme classes removed and the theme added. */
  function ApplyClasses(classes: set<string>, theme: string): (r: set<string>)
    ensures theme in r
    ensures forall c :: c in classes && !ValidTheme(c) ==> c in r
    ensures forall c :: c in r ==> c == theme || (c in classes && !ValidTheme(c))
  {
    (classes - {Light, Dark}) + {theme}
  }

  /** Applying a valid theme leaves exactly that theme class of the two;
      applying twice is applying once; the last application wins. */
  lemma ApplyClassesProperties(classes: set<string>, t: string, u: string)
    ensures ValidTheme(t) ==> t in ApplyClasses(classes, t) && Toggled(t) !in ApplyClasses(classes, t)
    ensures ApplyClasses(ApplyClasses(classes, t), t) == ApplyClasses(classes, t)
    ensures ValidTheme(t) ==> ApplyClasses(ApplyClasses(classes, t), u) == ApplyClasses(classes, u)
  {
  }

  /** What the provider hands to its consumers. */
  datatype ThemeContextValue = ThemeContextValue(theme: string)

  /** `useTheme()`: fails without a provider value. */
  function UseTheme(context: Option<ThemeContextValue>): (r: Result<ThemeContextValue, string>)
    ensures r.Failure? <==> context.None?
    ensures r.Failure? ==> r.error == OutsideProvider
    ensures r.Success? ==> r.value == context.value
  {
    match context
    case None => Failure(OutsideProvider)
    case Some(v) => Success(v)
  }

  /** `ThemeProvider`'s state, the document root it styles and the storage
      slot it reads and writes. */
  class ThemeProvider {
    var theme: string
    var mounted: bool
    var rootClasses: set<string>
    var dataTheme: Option<string>
    var stored: Option<string>

    constructor (rootClasses: set<string>, stored: Option<string>)
      ensures theme == Light && !mounted
      ensures this.rootClasses == rootClasses && dataTheme == None && this.stored == stored
    {
      theme := Light;
      mounted := false;
      this.rootClasses := rootClasses;
      dataTheme := None;
      this.stored := stored;
    }

    /** The document agrees with the theme once mounted. */
    predicate Applied()
      reads this
    {
      mounted ==> theme in rootClasses && stored == Some(theme) && dataTheme == Some(theme)
    }

    /** The provider's value: none is given before mount, when children
        render without the provider around them. */
    function Context(): (c: Option<ThemeContextValue>)
      reads this
      ensures c.Some? <==> mounted
      ensures c.Some? ==> c.value.theme == theme
    {
      if mounted then Some(ThemeContextValue(theme)) else None
    }

    /** The mount effect: pick the initial theme and mark the provider
        mounted; `prefersDark` is the media query's answer. */
    method InitEffect(prefersDark: bool)
      modifies this`theme, this`mounted
      ensures theme == InitialTheme(stored, prefersDark) && mounted
    {
      theme := InitialTheme(stored, prefersDark);
      mounted := true;
    }

    /** The effect on `[theme, mounted]`: once mounted, style the root with
        the theme, save it and set `data-theme`; before mount nothing. */
    method ApplyEffect()
      modifies this`rootClasses, this`stored, this`dataTheme
      ensures Applied()
      ensures mounted ==> (rootClasses == ApplyClasses(old(rootClasses), theme)
        && stored == Some(theme) && dataTheme == Some(theme))
      ensures !mounted ==> rootClasses == old(rootClasses) && stored == old(stored) && dataTheme == old(dataTheme)
    {
      if mounted {
        rootClasses := ApplyClasses(rootClasses, theme);
        stored := Some(theme);
        dataTheme := Some(theme);
      }
    }

    /** `toggleTheme()`, with the effect it triggers. */
    method ToggleTheme()
      modifies this`theme, this`rootClasses, this`stored, this`dataTheme
      ensures theme == Toggled(old(theme)) && Applied()
      ensures mounted ==> rootClasses == ApplyClasses(old(rootClasses), theme) && stored == Some(theme)
      ensures !mounted ==> rootClasses == old(rootClasses) && stored == old(stored) && dataTheme == old(dataTheme)
    {
      theme := Toggled(theme);
      ApplyEffect();
    }

    /** `setTheme(t)`, with the effect it triggers. */
    method SetTheme(t: string)
      modifies this`theme, this`rootClasses, this`stored, this`dataTheme
      ensures theme == t && Applied()
      ensures mounted ==> rootClasses == ApplyClasses(old(rootClasses), t) && stored == Some(t)
      ensures !mounted ==> rootClasses == old(rootClasses) && stored == old(stored) && dataTheme == old(dataTheme)
    {
      theme := t;
      ApplyEffect();
    }
  }

  /** Mounting: the initial theme is chosen from what was saved, then
      applied and saved, so the next mount with the same preference picks
      the same theme. */
  method Mount(p: ThemeProvider, prefersDark: bool)
    modifies p
    ensures p.mounted && p.Applied()
    ensures p.theme == InitialTheme(old(p.stored), prefersDark)
    ensures p.rootClasses == ApplyClasses(old(p.rootClasses), p.theme)
    ensures InitialTheme(p.stored, prefersDark) == p.theme
    ensures UseTheme(p.Context()) == Success(ThemeContextValue(p.theme))
  {
    p.InitEffect(prefersDark);
    p.ApplyEffect();
    SavedThemeIsKept(p.theme, prefersDark);
  }

  /** A theme saved by the apply effect is what the next mount starts with,
      whatever the system preference, unless it is the empty string. */
  lemma SavedThemeIsKept(t: string, prefersDark: bool)
    ensures t != [] ==> InitialTheme(Some(t), prefersDark) == t
    ensures t == [] ==> InitialTheme(Some(t), prefersDark) == InitialTheme(None, prefersDark)
  {
  }
}
