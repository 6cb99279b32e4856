# Theme-preference controller of react_native_dark_mode, in Dafny

The app lets the user pick a theme preference: `'on'` (always dark), `'off'`
(always light) or follow the operating system. It keeps the preference in
AsyncStorage under the key `'themePreference'`. It resolves the preference
and the OS colour scheme into a navigation theme (`DarkTheme` or
`DefaultTheme`). It listens for OS scheme changes through
`Appearance.addChangeListener`.

There are two versions of the controller. `App.tsx` spells "follow the
system" as `'followSystem'`. The older `Backup.tsx` spells it `'system'`.
Otherwise their code is the same, so the model has one controller with a
`Version` parameter (`Current` or `Backup`) that supplies the follow string.

- `theme_core.dfy` (module `ThemeCore`): the theme and colour-scheme values,
  the resolver `updateTheme`, the status-bar style, and the screens' own
  `isDarkMode` rule.
- `controller.dfy` (module `Controller`): the controller as a state machine
  over values. The state is the React state (`theme`, `themePreference`),
  the storage map, the OS scheme and the OS listener registry. The steps are
  toggle, load, OS scheme change, effect re-run and unmount. `Run` plays any
  sequence of events.
- `controller_class.dfy` (module `ControllerClass`): the same controller as a
  class whose fields the methods update in place. Each method is proved to
  perform exactly the matching step of `Controller`. The OS notification
  is a loop over the registered listeners.
- `controller_lemmas.dfy` (module `ControllerLemmas`): properties over whole
  runs. These cover listener accounting, when the theme is current, and the
  cross-version hazard.
- `screens.dfy`: Backup.tsx's inline option buttons and the three screens
  that derive darkness from the preference string.

The environment is modelled as data. AsyncStorage is a `map<string,
string>`. A failed read or write is a boolean parameter (`readFails`,
`saved`). `Appearance.getColorScheme()` is a field with values `Light`,
`Dark` or `NoPreference` (null). Each registered listener is a record of the
preference its closure captured and whether it is still registered.

Behaviours of the code worth noting:
- The controller subscribes to OS changes for every preference; the
  listener itself checks the preference. `OneListenerWhileMounted` states
  this.
- Any non-null stored string is adopted as the preference, including one
  neither version recognises.
- At startup the theme is `DefaultTheme` even when the OS is dark and the
  store is empty. Loading a missing value changes nothing.
  `DarkStartupShowsLight` states this.
- The two versions use different follow strings under one storage key.
  `ForeignFollowValueFreezes` and `BackupIgnoresAppFollowValue` show the
  consequence. The other version's follow value is resolved from the OS
  once, then never tracks OS changes.

## Model

| member | source | states |
|---|---|---|
| `ThemeCore.ResolveTheme` | App.tsx:34-44 | 'on' gives a dark theme and 'off' a light one whatever the OS says; every other string, recognised or not, is dark exactly when the OS scheme is dark |
| `ControllerClass.ThemeController.UpdateTheme` | Backup.tsx:83-93 | the in-place `updateTheme` sets `theme` to the resolver's value for the preference and the current OS scheme |
| `ThemeCore.StatusBarStyle` | Backup.tsx:119 | the bar style is one of the two styles, and 'light-content' exactly when the theme is dark (App.tsx:84 is the same rule) |
| `ThemeCore.ScreenDark` | ThemeStatusScreen.tsx:13-14 | the screens' rule is dark for 'on', light for 'off', agrees with the resolver on the screen's follow string, and is light for every other string (where the resolver follows the OS instead) |
| `Controller.StoredPreference` | App.tsx:48 | `getItem` returns the value under 'themePreference' when the key is present and null otherwise |
| `Controller.Initial` | Backup.tsx:59-61 | before any load or toggle: theme DefaultTheme, preference the version's follow value ('system' for Backup.tsx), storage and OS as given, exactly one live listener capturing that preference |
| `ControllerClass.ThemeController.Mount` | App.tsx:22-24 | the mounted object's state is the initial state: DefaultTheme and 'followSystem' for App.tsx, with the first effect's listener registered |
| `Controller.Effect` | Backup.tsx:95-108 | an effect run removes the previous listener and adds one capturing the current preference; afterwards exactly the last listener is live and it captured the current preference; nothing else changes |
| `ControllerClass.ThemeController.RunEffect` | App.tsx:58-71 | the in-place effect run performs exactly `Effect` on the fields |
| `Controller.Commit` | App.tsx:71 | when the preference is unchanged the committed state is kept as it is, with no new listener; when it changed the effect re-runs (`Effect`); either way the listener is up to date afterwards and nothing but the registry differs from the committed state |
| `Controller.Toggle` | Backup.tsx:110-114 | after `toggleTheme(p)` the preference is `p`, the theme is the resolver's value for `p` and the current OS, the stored value is `p` when the write succeeds, a failed write leaves storage unchanged, other keys are untouched, the OS scheme is unchanged and the listener is up to date |
| `ControllerClass.ThemeController.ToggleTheme` | App.tsx:74-78 | the in-place `toggleTheme` performs exactly `Toggle` |
| `ControllerClass.ThemeController.StoreThemePreference` | App.tsx:26-32 | a successful write puts the preference under 'themePreference'; a failed one is caught and leaves storage as it was |
| `Controller.Load` | Backup.tsx:71-81 | a failed read or a null value leaves the whole state unchanged; a stored string `s` becomes the preference with the theme resolved from `s` and the OS; storage and OS are unchanged |
| `ControllerClass.ThemeController.LoadThemePreference` | App.tsx:46-56 | the in-place `loadThemePreference` performs exactly `Load` |
| `Controller.Notify` | App.tsx:61-65 | calling the listeners in order gives the resolver's value for the follow string and the new scheme if some live listener captured the follow string, and leaves the theme as it was otherwise |
| `Controller.AppearanceChange` | Backup.tsx:98-102 | on an OS scheme change the theme is re-resolved from the new scheme only when the preference is exactly the follow value, and is unchanged for 'on', 'off' and any other string; the preference and the registry do not change |
| `ControllerClass.ThemeController.AppearanceChanged` | App.tsx:61-65 | the loop over the registered listeners performs exactly `AppearanceChange` |
| `Controller.Unmount` | Backup.tsx:104-107 | the final cleanup leaves no listener of this controller registered and changes nothing else |
| `ControllerClass.ThemeController.Unmount` | App.tsx:67-70 | the in-place cleanup performs exactly `Unmount` |
| `Controller.Run` | App.tsx:58-71 | after any sequence of toggles, loads and scheme changes the effect is up to date: one live listener, capturing the current preference |
| `ControllerLemmas.LiveCountNoLeak` | App.tsx:67-70 | when every listener but the last has been removed, the OS holds one listener if the last is live and none otherwise |
| `ControllerLemmas.OneListenerWhileMounted` | App.tsx:58-71 | a mounted controller holds exactly one OS listener, whatever the preference |
| `ControllerLemmas.NoListenerAfterUnmount` | App.tsx:67-70 | after unmount the OS holds no listener of the controller |
| `ControllerLemmas.StepKeepsSyncedOrForeign` | App.tsx:34-78 | each toggle, load or scheme change keeps the theme current unless the preference is a string the version does not recognise |
| `ControllerLemmas.RunKeepsSyncedOrForeign` | App.tsx:34-78 | from a state whose theme is current (or whose preference is foreign), every run keeps it so; dark-OS startup is the exception, see `DarkStartupShowsLight` |
| `ControllerLemmas.LightStartupRunsSyncedOrForeign` | App.tsx:22-24 | starting on a light OS or one reporting no scheme, every run from the mount state ends with the theme current or the preference foreign |
| `ControllerLemmas.StartupSyncedOrForeignAfterFirstChange` | App.tsx:58-78 | on any OS, once the first event after mount is a toggle or a scheme change, every run ends with the theme current or the preference foreign |
| `ControllerLemmas.SchemeChangesIgnored` | App.tsx:61-65 | unless the preference is exactly the follow value, no sequence of OS scheme changes alters the theme or the preference |
| `ControllerLemmas.FollowTracksScheme` | App.tsx:39-43 | with the follow value selected, after a non-empty sequence of scheme changes the theme is the one resolved from the last scheme |
| `ControllerLemmas.ToggleTwice` | App.tsx:74-78 | choosing the same preference twice gives the same state as choosing it once, with no extra listener |
| `ControllerLemmas.SaveThenLoad` | App.tsx:26-56 | a successful save followed by a load changes nothing |
| `ControllerLemmas.FailedSaveThenLoad` | App.tsx:29-31 | after a failed save, a later load brings back the previously stored string and resolves the theme from it |
| `ControllerLemmas.DarkStartupShowsLight` | App.tsx:23-24 | with an empty store and a dark OS the app shows DefaultTheme after loading, although the resolver would give DarkTheme; the first scheme change makes the theme current |
| `ControllerLemmas.StoredOnOverridesLightOs` | App.tsx:46-56 | a stored 'on' loaded on a light OS gives preference 'on', DarkTheme, and no listener that reacts to scheme changes |
| `ControllerLemmas.ForeignFollowValueFreezes` | Backup.tsx:98-102 | when one version saves its follow value and the other loads it, the theme is resolved from the OS once and then no scheme change alters it |
| `ControllerLemmas.BackupIgnoresAppFollowValue` | Backup.tsx:99 | App.tsx's stored 'followSystem', loaded by Backup.tsx on a light OS, stays DefaultTheme after the OS turns dark, although the resolver gives DarkTheme for it |
| `BackupHomeScreen.ButtonTextColor` | Backup.tsx:28 | a button's text is white exactly when its value equals the preference |
| `BackupHomeScreen.ActiveButtons` | Backup.tsx:22-51 | exactly the buttons whose value equals the preference are active: one for 'on', 'off' or 'system', none for any other string |
| `ThemeStatusScreen.CurrentThemeLabel` | ThemeStatusScreen.tsx:13-27 | the label is "Dark" or "Light": "Dark" for 'on' and "Light" for 'off' whatever the OS, for 'followSystem' "Dark" exactly when the OS is dark, "Light" for any other string |
| `ThemeStatusScreen.LabelAgreesWithResolver` | ThemeStatusScreen.tsx:13-14 | on 'on', 'off' and 'followSystem' the label is "Dark" exactly when App.tsx's resolver picks DarkTheme |
| `ThemeStatusScreen.LabelDisagreesOnForeignValue` | ThemeStatusScreen.tsx:27 | on any other string and a dark OS the label says "Light" while the resolver picks DarkTheme |
| `ToggleSettingsScreen.ListBackground` | ToggleSettingsScreen.tsx:15-39 | the list background is '#333333' exactly when the preference is 'on' or is 'followSystem' with a dark OS, and 'white' otherwise |
| `ToggleSettingsScreen.Trailing` | ToggleSettingsScreen.tsx:46 | a row shows "Yes" exactly when its value equals the selected value, and nothing otherwise |
| `ToggleSettingsScreen.MarkedRows` | ToggleSettingsScreen.tsx:23-27 | over the options 'on', 'off', 'followSystem' in that order, the rows marked are those whose value is the selection: at most one, none for a selection outside the three |
| `ToggleSettingsScreen.ToggleSettings.constructor` | ToggleSettingsScreen.tsx:13 | the selection starts as the incoming preference |
| `ToggleSettingsScreen.ToggleSettings.HandleThemePreferenceChange` | ToggleSettingsScreen.tsx:18-21 | the selection becomes `v` and the controller performs `toggleTheme(v)` with exactly `v` |
| `ToggleSettingsScreen.ToggleSettings.PressRow` | ToggleSettingsScreen.tsx:47 | pressing row `i` selects `data[i].value`, marks exactly row `i`, and toggles the controller to that value |
| `TextInputScreen.KeyboardAppearance` | TextInputScreen.tsx:21-33 | the keyboard is "dark" exactly when the preference is 'on' or is 'system' with a dark OS, and "light" otherwise |
| `TextInputScreen.FollowSystemKeyboardStaysLight` | TextInputScreen.tsx:21-22 | under App.tsx's 'followSystem' the keyboard is "light" even on a dark OS, where App.tsx's resolver gives DarkTheme |
| `TextInputScreen.OffKeyboardLight` | TextInputScreen.tsx:33 | under 'off' the keyboard is always "light" |
| `TextInputScreen.TextInput.constructor` | TextInputScreen.tsx:19 | the input starts empty |
| `TextInputScreen.TextInput.OnChangeText` | TextInputScreen.tsx:30 | after a change the input holds exactly the new text |

## Left out

- JSX rendering, `StyleSheet` objects, colours taken from the theme palette, and navigation wiring are left out. This includes the navigators, `Platform`-dependent presentation, `headerLeft`, `initialParams` and the "Go to Settings" button. They are view composition with no statable behaviour.
- HomeScreen.tsx is not part of this model. It only reads two palette colours.
- The palettes of `DarkTheme` and `DefaultTheme` are not modelled. They are library constants, so the model keeps only their `dark` flag.
- The internals of AsyncStorage and Appearance are not modelled. They are native modules, so the model keeps a storage map, a scheme field and a listener registry.
- Promise timing is not modelled. Each save completes or fails at once, inside `toggleTheme`. The load that every effect run starts is modelled as a separate `LoadPreference` event. The model therefore covers any interleaving of that load, but does not tie each effect run to exactly one later load.
- React hook machinery is left out: `useCallback` memoisation, render scheduling and the batching of state setters. The effect's re-run after a preference change is the explicit `Commit` step.
- The listener's `colorScheme` argument is not modelled. The source ignores it and re-reads `Appearance.getColorScheme()`, which the model gives as the new scheme.
- `console.error` logging is left out.
- `Keyboard.dismiss` and the text field's styling are left out.
