/**
 * The theme provider (frontend/src/components/theme-provider.tsx): the theme held by the
 * provider, its choice on mounting, the toggle, and the copy kept under the storage key.
 * Each operation is a function from the provider's state to the state after React has
 * run the effects it triggers; the browser's storage and colour-scheme preference are
 * part of the state and a parameter.
 */
module ThemeProvider {
  import opened Wrappers
  import SocketService

  const Light: string := "light"
  const Dark: string := "dark"
  const OutsideProviderError: string := "useTheme must be used within a ThemeProvider"

  /** One of the two themes the type names; a stored value is not checked against them. */
  predicate IsTheme(t: string)
  {
    t == Light || t == Dark
  }

  /**
   * The provider's state: the current theme, whether it has mounted, and the value under
   * its storage key.
   */
  datatype ProviderState = ProviderState(theme: string, mounted: bool, stored: Option<string>)

  /** The first render: the default theme ("light" unless given) and not yet mounted. */
  function Create(defaultTheme: Option<string>, stored: Option<string>): (s: ProviderState)
    ensures !s.mounted && s.stored == stored
    ensures defaultTheme.None? ==> s.theme == Light
    ensures defaultTheme.Some? ==> s.theme == defaultTheme.value
  {
    ProviderState(defaultTheme.GetOr(Light), false, stored)
  }

  /** The theme chosen on mounting: a non-empty stored value wins; otherwise dark exactly when the system prefers dark. */
  function InitialTheme(stored: Option<string>, prefersDark: bool): (t: string)
    ensures SocketService.TruthyText(stored) ==> t == stored.value
    ensures !SocketService.TruthyText(stored) ==> (t == Dark <==> prefersDark) && IsTheme(t)
  {
    if SocketService.TruthyText(stored) then stored.value
    else if prefersDark then Dark else Light
  }

  /**
   * The mount effect, then the storage effect it triggers: mounted, the initial theme
   * chosen, and that theme written back under the storage key.
   */
  function Mount(s: ProviderState, prefersDark: bool): (r: ProviderState)
    ensures r.mounted && r.theme == InitialTheme(s.stored, prefersDark) && r.stored == Some(r.theme)
  {
    var t := InitialTheme(s.stored, prefersDark);
    ProviderState(t, true, Some(t))
  }

  /** The storage effect: once mounted, the current theme is written under the storage key. */
  function Persist(s: ProviderState): (r: ProviderState)
    ensures r.theme == s.theme && r.mounted == s.mounted
    ensures r.stored == if s.mounted then Some(s.theme) else s.stored
  {
    if s.mounted then s.(stored := Some(s.theme)) else s
  }

  /** `toggleTheme`'s update: "light" becomes "dark", and anything else becomes "light". */
  function Toggled(t: string): (r: string)
    ensures r == Dark <==> t == Light
    ensures IsTheme(r)
  {
    if t == Light then Dark else Light
  }

  /** `setTheme(t)`: exactly `t` becomes the theme, and is stored once mounted. */
  function SetTheme(s: ProviderState, t: string): (r: ProviderState)
    ensures r.theme == t && r.mounted == s.mounted
    ensures r.stored == if s.mounted then Some(t) else s.stored
  {
    Persist(s.(theme := t))
  }

  /** `toggleTheme()`: the theme flips between light and dark, and is stored once mounted. */
  function Toggle(s: ProviderState): (r: ProviderState)
    ensures r.theme == Toggled(s.theme) && r.mounted == s.mounted
    ensures r.stored == if s.mounted then Some(r.theme) else s.stored
  {
    Persist(s.(theme := Toggled(s.theme)))
  }

  /** Toggling twice gives back either theme. */
  lemma ToggleTwice(s: ProviderState)
    requires IsTheme(s.theme)
    ensures Toggle(Toggle(s)).theme == s.theme
  {
  }

  /** A stored value that is neither theme is not kept by toggling twice: it ends as "dark". */
  lemma ToggleTwiceNormalises(s: ProviderState)
    requires !IsTheme(s.theme)
    ensures Toggle(Toggle(s)).theme == Dark
  {
  }

  /** The value the provider gives its children: none until mounted (it renders nothing), then the theme. */
  function Context(s: ProviderState): (r: Option<string>)
    ensures r.Some? <==> s.mounted
    ensures r.Some? ==> r.value == s.theme
  {
    if s.mounted then Some(s.theme) else None
  }

  /** Before mounting nothing renders, whatever the default theme. */
  lemma NothingBeforeMount(defaultTheme: Option<string>, stored: Option<string>)
    ensures Context(Create(defaultTheme, stored)) == None
  {
  }

  /** `useTheme`: the provider's value, or the error it throws outside a provider. */
  function UseTheme(context: Option<string>): (r: Result<string, string>)
    ensures r.Err? <==> context.None?
    ensures r.Err? ==> r.error == OutsideProviderError
    ensures r.Ok? ==> r.value == context.value
  {
    match context
    case None => Err(OutsideProviderError)
    case Some(t) => Ok(t)
  }

  /** After mounting, the stored value and the theme agree. */
  predicate InSync(s: ProviderState)
  {
    s.mounted ==> s.stored == Some(s.theme)
  }

  /** Mounting, setting and toggling keep the stored value in step with the theme. */
  lemma OperationsKeepInSync(s: ProviderState, t: string, prefersDark: bool)
    ensures InSync(Mount(s, prefersDark))
    ensures InSync(SetTheme(s, t)) && InSync(Toggle(s))
  {
  }

  /**
   * A theme chosen after mounting survives a reload: a new provider reading the same
   * storage mounts with that theme, whatever the system prefers.
   */
  lemma ThemeSurvivesReload(s: ProviderState, defaultTheme: Option<string>, prefersDark: bool)
    requires s.mounted && InSync(s) && s.theme != ""
    ensures Mount(Create(defaultTheme, s.stored), prefersDark).theme == s.theme
  {
  }
}
