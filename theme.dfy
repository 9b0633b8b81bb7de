/** The theme provider's choice of light or dark mode from the theme
    setting and the device's colour scheme. */
module Theme {
  import opened Wrappers

  datatype Mode = Light | Dark

  /** `chosen`. `device` is what `useColorScheme()` returns; None stands for
      `null` and `undefined`. */
  function ChosenMode(theme: string, device: Option<string>): Mode {
    if theme == "system" then (if device == Some("dark") then Dark else Light)
    else (if theme == "dark" then Dark else Light)
  }

  /** The mode is dark exactly when the theme is "dark", or "system" on a
      device in dark mode; any other theme value falls back to light. */
  lemma ChosenModeDarkIff(theme: string, device: Option<string>)
    ensures ChosenMode(theme, device) == Dark <==>
      theme == "dark" || (theme == "system" && device == Some("dark"))
    ensures theme == "light" ==> ChosenMode(theme, device) == Light
  {
  }

  /** Only the "system" theme looks at the device. */
  lemma DeviceMattersOnlyForSystem(theme: string, d1: Option<string>, d2: Option<string>)
    requires theme != "system"
    ensures ChosenMode(theme, d1) == ChosenMode(theme, d2)
  {
  }

  /** Under "system", the mode is the device's when the device reports one
      of the two, and light when it reports nothing. */
  lemma SystemFollowsDevice(device: Option<string>)
    ensures device == Some("dark") ==> ChosenMode("system", device) == Dark
    ensures device == Some("light") ==> ChosenMode("system", device) == Light
    ensures device == None ==> ChosenMode("system", device) == Light
  {
  }
}
