/** The inline HomeScreen of Backup.tsx: three option buttons, the one whose
    value is the preference drawn active with white text. */
module BackupHomeScreen {
  import opened ThemeCore

  datatype OptionButton = OptionButton(title: string, value: string)

  /** The buttons in the order they are drawn; pressing one passes its value
      to `toggleTheme`. */
  const Buttons: seq<OptionButton> :=
    [OptionButton("On", "on"), OptionButton("Off", "off"), OptionButton("Follow System", "system")]

  datatype TextColor = White | Primary

  function ButtonTextColor(b: OptionButton, preference: string): (c: TextColor)
    ensures c == White <==> b.value == preference
  {
    if preference == b.value then White else Primary
  }

  /** Indices of the buttons drawn with the active style. */
  function ActiveButtons(preference: string): (active: set<nat>)
    ensures forall i: nat :: i in active <==> i < |Buttons| && Buttons[i].value == preference
    ensures |active| <= 1
    ensures !Recognised(Backup, preference) ==> active == {}
    ensures Recognised(Backup, preference) ==> |active| == 1
  {
    var active := set i: nat | i < |Buttons| && Buttons[i].value == preference;
    if preference == "on" then
      assert active == {0}; active
    else if preference == "off" then
      assert active == {1}; active
    else if preference == "system" then
      assert active == {2}; active
    else
      assert active == {}; active
  }
}

/** ThemeStatusScreen.tsx: the "Current Theme" label. */
module ThemeStatusScreen {
  import opened ThemeCore

  function IsDarkMode(themePreference: string, os: ColorScheme): bool {
    ScreenDark(themePreference, "followSystem", os)
  }

  function CurrentThemeLabel(themePreference: string, os: ColorScheme): (text: string)
    ensures text == "Dark" || text == "Light"
    ensures themePreference == "on" ==> text == "Dark"
    ensures themePreference == "off" ==> text == "Light"
    ensures themePreference == "followSystem" ==> (text == "Dark" <==> os == Dark)
    ensures !Recognised(Current, themePreference) ==> text == "Light"
  {
    if IsDarkMode(themePreference, os) then "Dark" else "Light"
  }

  /** On App.tsx's three values the label agrees with the resolver. */
  lemma LabelAgreesWithResolver(themePreference: string, os: ColorScheme)
    requires Recognised(Current, themePreference)
    ensures CurrentThemeLabel(themePreference, os) == "Dark"
      <==> ResolveTheme(themePreference, os).Dark()
  {
  }

  /** On any other string, such as Backup.tsx's 'system', they part ways
      whenever the OS is dark. */
  lemma LabelDisagreesOnForeignValue(themePreference: string)
    requires !Recognised(Current, themePreference)
    ensures CurrentThemeLabel(themePreference, Dark) == "Light"
    ensures ResolveTheme(themePreference, Dark) == DarkTheme
  {
  }
}

/** ToggleSettingsScreen.tsx: the option list and the local selection. */
module ToggleSettingsScreen {
  import opened ThemeCore
  import opened Controller
  import opened ControllerClass

  datatype ListItem = ListItem(title: string, value: string)

  const Data: seq<ListItem> :=
    [ListItem("On", "on"), ListItem("Off", "off"), ListItem("Follow System", "followSystem")]

  function IsDarkMode(themePreference: string, os: ColorScheme): bool {
    ScreenDark(themePreference, "followSystem", os)
  }

  function ListBackground(themePreference: string, os: ColorScheme): (color: string)
    ensures color == "#333333" || color == "white"
    ensures color == "#333333" <==> (themePreference == "on" || (themePreference == "followSystem" && os == Dark))
  {
    if IsDarkMode(themePreference, os) then "#333333" else "white"
  }

  /** The row's trailing text: "Yes" on the selected row, nothing otherwise. */
  function Trailing(item: ListItem, selected: string): (t: Option<string>)
    ensures t.Some? <==> item.value == selected
    ensures t.Some? ==> t.value == "Yes"
  {
    if item.value == selected then Some("Yes") else None
  }

  /** Indices of the rows marked "Yes". */
  function MarkedRows(selected: string): (rows: set<nat>)
    ensures forall i: nat :: i in rows <==> i < |Data| && Trailing(Data[i], selected).Some?
    ensures |rows| <= 1
    ensures !Recognised(Current, selected) ==> rows == {}
  {
    var rows := set i: nat | i < |Data| && Data[i].value == selected;
    if selected == "on" then
      assert rows == {0}; rows
    else if selected == "off" then
      assert rows == {1}; rows
    else if selected == "followSystem" then
      assert rows == {2}; rows
    else
      assert rows == {}; rows
  }

  class ToggleSettings {
    var selectedThemePreference: string

    /** The local selection starts as the incoming preference prop. */
    constructor (themePreference: string)
      ensures selectedThemePreference == themePreference
    {
      selectedThemePreference := themePreference;
    }

    /** `handleThemePreferenceChange`: select `value` and pass exactly it to
        the controller's `toggleTheme`. */
    method HandleThemePreferenceChange(value: string, controller: ThemeController, saved: bool)
      requires Mounted(controller.Snapshot())
      modifies this, controller
      ensures selectedThemePreference == value
      ensures controller.Snapshot() == Toggle(old(controller.Snapshot()), value, saved)
    {
      selectedThemePreference := value;
      controller.ToggleTheme(value, saved);
    }

    /** Pressing row `i` hands that row's value on. */
    method PressRow(i: nat, controller: ThemeController, saved: bool)
      requires i < |Data| && Mounted(controller.Snapshot())
      modifies this, controller
      ensures selectedThemePreference == Data[i].value
      ensures MarkedRows(selectedThemePreference) == {i}
      ensures controller.Snapshot() == Toggle(old(controller.Snapshot()), Data[i].value, saved)
    {
      HandleThemePreferenceChange(Data[i].value, controller, saved);
    }
  }
}

/** TextInputScreen.tsx: its own dark rule, written for Backup.tsx's values,
    and the text field's value. */
module TextInputScreen {
  import opened ThemeCore

  function IsDarkMode(themePreference: string, os: ColorScheme): bool {
    ScreenDark(themePreference, "system", os)
  }

  function KeyboardAppearance(themePreference: string, os: ColorScheme): (k: string)
    ensures k == "dark" || k == "light"
    ensures k == "dark" <==> (themePreference == "on" || (themePreference == "system" && os == Dark))
  {
    if IsDarkMode(themePreference, os) then "dark" else "light"
  }

  /** Under App.tsx's follow value the keyboard stays light on a dark OS,
      while App.tsx itself shows the dark theme. */
  lemma FollowSystemKeyboardStaysLight(os: ColorScheme)
    ensures KeyboardAppearance("followSystem", os) == "light"
    ensures os == Dark ==> ResolveTheme("followSystem", os) == DarkTheme
  {
  }

  lemma OffKeyboardLight(os: ColorScheme)
    ensures KeyboardAppearance("off", os) == "light"
  {
  }

  class TextInput {
    var inputValue: string

    constructor ()
      ensures inputValue == ""
    {
      inputValue := "";
    }

    /** `onChangeText`: the field holds exactly the new text. */
    method OnChangeText(text: string)
      modifies this
      ensures inputValue == text
    {
      inputValue := text;
    }
  }
}
