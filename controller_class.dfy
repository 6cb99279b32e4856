/** The controller as the component runs it: React state, AsyncStorage and the
    OS listener registry as fields updated in place. Each method is proved to
    make exactly the step of the pure machine in module Controller. */
module ControllerClass {
  import opened ThemeCore
  import opened Controller

  class ThemeController {
    const version: Version
    var theme: NavTheme
    var themePreference: string
    /** AsyncStorage, key to value. */
    var stored: map<string, string>
    /** What `Appearance.getColorScheme()` currently reports. */
    var os: ColorScheme
    /** Every listener handed to `Appearance.addChangeListener`, in order. */
    var subscriptions: seq<Subscription>

    function Snapshot(): State
      reads this
    {
      State(theme, themePreference, stored, os, subscriptions)
    }

    /** First render and first effect run. */
    constructor Mount(version: Version, stored: map<string, string>, os: ColorScheme)
      ensures this.version == version
      ensures Snapshot() == Initial(version, stored, os)
    {
      this.version := version;
      theme := DefaultTheme;
      themePreference := version.FollowSystem();
      this.stored := stored;
      this.os := os;
      subscriptions := [Subscription(version.FollowSystem(), true)];
    }

    /** `updateTheme`: reads the OS scheme only for strings other than 'on'
        and 'off'. */
    method UpdateTheme(preference: string)
      modifies this`theme
      ensures theme == ResolveTheme(preference, os)
    {
      if preference == "on" {
        theme := DarkTheme;
      } else if preference == "off" {
        theme := DefaultTheme;
      } else {
        var isDarkMode := os == Dark;
        theme := if isDarkMode then DarkTheme else DefaultTheme;
      }
    }

    /** `storeThemePreference`: a failed write (`saved` false) is caught and
        leaves storage as it was. */
    method StoreThemePreference(preference: string, saved: bool)
      modifies this`stored
      ensures stored == if saved then old(stored)[PreferenceKey := preference] else old(stored)
    {
      if saved {
        stored := stored[PreferenceKey := preference];
      }
    }

    /** The effect body: remove the previous listener, add one capturing the
        current preference. */
    method RunEffect()
      requires NoLeak(subscriptions)
      modifies this`subscriptions
      ensures Snapshot() == Effect(old(Snapshot()))
    {
      if subscriptions != [] {
        var last := |subscriptions| - 1;
        subscriptions := subscriptions[last := subscriptions[last].(live := false)];
      }
      subscriptions := subscriptions + [Subscription(themePreference, true)];
    }

    method ToggleTheme(preference: string, saved: bool)
      requires Mounted(Snapshot())
      modifies this`theme, this`themePreference, this`stored, this`subscriptions
      ensures Snapshot() == Toggle(old(Snapshot()), preference, saved)
    {
      var previous := themePreference;
      themePreference := preference;
      UpdateTheme(preference);
      StoreThemePreference(preference, saved);
      if themePreference != previous {
        RunEffect();
      }
    }

    /** `loadThemePreference`; `readFails` is a rejected `getItem`. */
    method LoadThemePreference(readFails: bool)
      requires Mounted(Snapshot())
      modifies this`theme, this`themePreference, this`subscriptions
      ensures Snapshot() == Load(old(Snapshot()), readFails)
    {
      if readFails {
        return;
      }
      var preference := if PreferenceKey in stored then Some(stored[PreferenceKey]) else None;
      if preference.Some? {
        var previous := themePreference;
        themePreference := preference.value;
        UpdateTheme(preference.value);
        if themePreference != previous {
          RunEffect();
        }
      }
    }

    /** The OS switches to `scheme` and calls each live listener in turn. */
    method AppearanceChanged(scheme: ColorScheme)
      requires Mounted(Snapshot())
      modifies this`os, this`theme
      ensures Snapshot() == AppearanceChange(version, old(Snapshot()), scheme)
    {
      os := scheme;
      ghost var before := theme;
      var i := 0;
      while i < |subscriptions|
        invariant 0 <= i <= |subscriptions|
        invariant os == scheme
        invariant theme == Notify(version, subscriptions[..i], scheme, before)
      {
        assert subscriptions[..i + 1][..i] == subscriptions[..i];
        var listener := subscriptions[i];
        if listener.live && listener.captured == version.FollowSystem() {
          UpdateTheme(listener.captured);
        }
        i := i + 1;
      }
      assert subscriptions[..i] == subscriptions;
    }

    method Unmount()
      requires Mounted(Snapshot())
      modifies this`subscriptions
      ensures Snapshot() == Controller.Unmount(old(Snapshot()))
    {
      var last := |subscriptions| - 1;
      subscriptions := subscriptions[last := subscriptions[last].(live := false)];
    }
  }
}
