/** Values shared by the theme controller and the screens: the navigation
    theme, the OS colour scheme, the two controller versions and the pure
    rules that turn a preference string into "dark or not". */
module ThemeCore {

  datatype Option<T> = None | Some(value: T)

  /** The two navigation themes; only their `dark` flag matters here. */
  datatype NavTheme = DefaultTheme | DarkTheme {
    predicate Dark() { this == DarkTheme }
  }

  /** What `Appearance.getColorScheme()` reports: 'light', 'dark' or null. */
  datatype ColorScheme = Light | Dark | NoPreference

  /** The two versions of the controller: App.tsx (current) and Backup.tsx.
      They differ only in the string that means "follow the system". */
  datatype Version = Current | Backup {
    /** The follow-system preference string, which is also each version's
        initial preference. */
    function FollowSystem(): string {
      match this
      case Current => "followSystem"
      case Backup => "system"
    }
  }

  /** The AsyncStorage key both versions read and write. */
  const PreferenceKey: string := "themePreference"

  /** A preference string this version gives a meaning to. */
  predicate Recognised(v: Version, preference: string) {
    preference == "on" || preference == "off" || preference == v.FollowSystem()
  }

  /** `updateTheme`: 'on' forces dark, 'off' forces light, and every other
      string, recognised or not, follows the OS scheme. */
  function ResolveTheme(preference: string, os: ColorScheme): (t: NavTheme)
    ensures preference == "on" ==> t.Dark()
    ensures preference == "off" ==> !t.Dark()
    ensures preference != "on" && preference != "off" ==> (t.Dark() <==> os == Dark)
  {
    if preference == "on" then DarkTheme
    else if preference == "off" then DefaultTheme
    else if os == Dark then DarkTheme
    else DefaultTheme
  }

  /** The status bar's `barStyle`. */
  function StatusBarStyle(theme: NavTheme): (style: string)
    ensures style == "light-content" || style == "dark-content"
    ensures style == "light-content" <==> theme.Dark()
  {
    if theme.Dark() then "light-content" else "dark-content"
  }

  /** The screens' own `isDarkMode` rule: 'on', or exactly the follow string
      `follow` with a dark OS. It agrees with the resolver on the three
      values that `follow` makes recognised and says "light" on every other
      string, where the resolver follows the OS instead. */
  function ScreenDark(preference: string, follow: string, os: ColorScheme): (d: bool)
    ensures preference == "on" ==> d
    ensures preference == "off" && follow != "off" ==> !d
    ensures preference == follow && follow != "on" && follow != "off"
      ==> (d <==> ResolveTheme(preference, os).Dark())
    ensures preference != "on" && preference != follow ==> !d
  {
    preference == "on" || (preference == follow && os == Dark)
  }
}
