/** The theme-preference controller of App.tsx (and of its earlier version in
    Backup.tsx) as a state machine over values. Each step is one thing the
    running app does: the user picks a preference, a storage read completes,
    the OS reports a new colour scheme, the component unmounts. The class in
    controller_class.dfy runs the same steps in place. */
module Controller {
  import opened ThemeCore

  /** One call of `Appearance.addChangeListener`: the preference the
      listener closure captured and whether it has not been removed yet. */
  datatype Subscription = Subscription(captured: string, live: bool)

  /** The React state (`theme`, `themePreference`) together with the
      environment it talks to: AsyncStorage, the OS scheme and the OS
      listener registry (every listener ever added, in order). */
  datatype State = State(
    theme: NavTheme,
    preference: string,
    stored: map<string, string>,
    os: ColorScheme,
    subscriptions: seq<Subscription>)

  /** What `AsyncStorage.getItem('themePreference')` returns. */
  function StoredPreference(s: State): (r: Option<string>)
    ensures r.Some? <==> PreferenceKey in s.stored
    ensures r.Some? ==> r.value == s.stored[PreferenceKey]
  {
    if PreferenceKey in s.stored then Some(s.stored[PreferenceKey]) else None
  }

  /** The displayed theme is what the resolver gives for the current
      preference and OS scheme. */
  predicate Synced(s: State) {
    s.theme == ResolveTheme(s.preference, s.os)
  }

  /** No listener but the last is still registered. */
  predicate NoLeak(subs: seq<Subscription>) {
    forall i :: 0 <= i < |subs| - 1 ==> !subs[i].live
  }

  /** The component is mounted and its effect is up to date: exactly the last
      listener is live and it captured the current preference. */
  predicate Mounted(s: State) {
    |s.subscriptions| > 0
    && NoLeak(s.subscriptions)
    && s.subscriptions[|s.subscriptions| - 1].live
    && s.subscriptions[|s.subscriptions| - 1].captured == s.preference
  }

  /** How many listeners the OS still holds. */
  function LiveCount(subs: seq<Subscription>): nat {
    if subs == [] then 0
    else LiveCount(subs[..|subs| - 1]) + (if subs[|subs| - 1].live then 1 else 0)
  }

  /** The effect's cleanup: `subscription.remove()` on the listener the
      previous run added, which is the last one registered. */
  function Cleanup(subs: seq<Subscription>): (r: seq<Subscription>)
    ensures |r| == |subs|
    ensures forall i :: 0 <= i < |subs| - 1 ==> r[i] == subs[i]
    ensures |subs| > 0 ==> r[|subs| - 1] == subs[|subs| - 1].(live := false)
  {
    if subs == [] then [] else subs[..|subs| - 1] + [subs[|subs| - 1].(live := false)]
  }

  /** The mount state: `theme` starts as DefaultTheme and `themePreference`
      as the version's follow value, whatever storage or the OS hold; the
      first effect run registers a listener capturing that value. */
  function Initial(v: Version, stored: map<string, string>, os: ColorScheme): (s: State)
    ensures s.theme == DefaultTheme && s.preference == v.FollowSystem()
    ensures s.stored == stored && s.os == os
    ensures Mounted(s) && LiveCount(s.subscriptions) == 1
  {
    State(DefaultTheme, v.FollowSystem(), stored, os, [Subscription(v.FollowSystem(), true)])
  }

  /** One run of the effect: remove the previous listener, then add one that
      captures the preference of this render. */
  function Effect(s: State): (r: State)
    requires NoLeak(s.subscriptions)
    ensures Mounted(r)
    ensures r.(subscriptions := s.subscriptions) == s
    ensures |r.subscriptions| == |s.subscriptions| + 1
  {
    var subs := Cleanup(s.subscriptions) + [Subscription(s.preference, true)];
    assert NoLeak(subs);
    s.(subscriptions := subs)
  }

  /** React commits a render: the effect re-runs only when its dependency,
      the preference, changed. */
  function Commit(before: State, after: State): (r: State)
    requires NoLeak(after.subscriptions)
    requires Mounted(before) && after.subscriptions == before.subscriptions
    ensures Mounted(r)
    ensures r.(subscriptions := after.subscriptions) == after
    ensures after.preference == before.preference ==> r == after
    ensures after.preference != before.preference ==> r == Effect(after)
  {
    if after.preference != before.preference then Effect(after) else after
  }

  /** `toggleTheme(p)`: set the preference, re-resolve the theme from the
      current OS scheme and write `p` under the key; `saved` is false when
      the write fails, which is caught and changes nothing else. */
  function Toggle(s: State, p: string, saved: bool): (r: State)
    requires Mounted(s)
    ensures r.preference == p && Synced(r) && Mounted(r)
    ensures r.os == s.os
    ensures saved ==> StoredPreference(r) == Some(p)
    ensures !saved ==> r.stored == s.stored
    ensures r.stored.Keys == s.stored.Keys + (if saved then {PreferenceKey} else {})
    ensures forall k :: k in s.stored && k != PreferenceKey ==> k in r.stored && r.stored[k] == s.stored[k]
  {
    var stored := if saved then s.stored[PreferenceKey := p] else s.stored;
    Commit(s, s.(preference := p, theme := ResolveTheme(p, s.os), stored := stored))
  }

  /** `loadThemePreference`: a stored string, whatever it is, becomes the
      preference and the theme is resolved from it; a missing value or a
      failed read (`readFails`) leaves the state as it was. */
  function Load(s: State, readFails: bool): (r: State)
    requires Mounted(s)
    ensures Mounted(r) && r.stored == s.stored && r.os == s.os
    ensures readFails || StoredPreference(s).None? ==> r == s
    ensures !readFails && StoredPreference(s).Some? ==>
      r.preference == StoredPreference(s).value && Synced(r)
  {
    if readFails then s
    else match StoredPreference(s)
      case None => s
      case Some(p) =>
        Commit(s, s.(preference := p, theme := ResolveTheme(p, s.os)))
  }

  /** A live listener whose captured preference is the follow value. */
  predicate Follows(v: Version, subs: seq<Subscription>) {
    exists i :: 0 <= i < |subs| && subs[i].live && subs[i].captured == v.FollowSystem()
  }

  /** The OS calls every live listener in registration order; each one whose
      captured preference is the follow value re-resolves the theme from the
      new scheme `os`, the others do nothing. */
  function Notify(v: Version, subs: seq<Subscription>, os: ColorScheme, theme: NavTheme): (t: NavTheme)
    ensures Follows(v, subs) ==> t == ResolveTheme(v.FollowSystem(), os)
    ensures !Follows(v, subs) ==> t == theme
  {
    if subs == [] then theme
    else
      var front := subs[..|subs| - 1];
      var last := subs[|subs| - 1];
      assert forall i :: 0 <= i < |front| ==> front[i] == subs[i];
      var t := Notify(v, front, os, theme);
      if last.live && last.captured == v.FollowSystem() then ResolveTheme(last.captured, os) else t
  }

  /** The OS switches to `os` and notifies the listeners. */
  function AppearanceChange(v: Version, s: State, os: ColorScheme): (r: State)
    requires Mounted(s)
    ensures Mounted(r)
    ensures r.os == os && r.(os := s.os, theme := s.theme) == s
    ensures s.preference == v.FollowSystem() ==> r.theme == ResolveTheme(s.preference, os)
    ensures s.preference != v.FollowSystem() ==> r.theme == s.theme
  {
    s.(os := os, theme := Notify(v, s.subscriptions, os, s.theme))
  }

  /** Unmount: the effect's cleanup runs one last time. */
  function Unmount(s: State): (r: State)
    requires Mounted(s)
    ensures r.(subscriptions := s.subscriptions) == s
    ensures forall i :: 0 <= i < |r.subscriptions| ==> !r.subscriptions[i].live
  {
    s.(subscriptions := Cleanup(s.subscriptions))
  }

  /** The events that drive a mounted controller. */
  datatype Event =
    | TogglePreference(preference: string, saved: bool)
    | LoadPreference(readFails: bool)
    | SchemeChange(scheme: ColorScheme)

  function Step(v: Version, s: State, e: Event): (r: State)
    requires Mounted(s)
    ensures Mounted(r)
  {
    match e
    case TogglePreference(p, saved) => Toggle(s, p, saved)
    case LoadPreference(readFails) => Load(s, readFails)
    case SchemeChange(os) => AppearanceChange(v, s, os)
  }

  function Run(v: Version, s: State, events: seq<Event>): (r: State)
    requires Mounted(s)
    ensures Mounted(r)
    decreases events
  {
    if events == [] then s else Run(v, Step(v, s, events[0]), events[1..])
  }

  /** Only OS scheme changes, no user action and no storage read. */
  predicate OnlySchemeChanges(events: seq<Event>) {
    forall i :: 0 <= i < |events| ==> events[i].SchemeChange?
  }
}
