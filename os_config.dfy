/** Platform classification and the editor's settings path of the
    second-generation tool (vscode_sync/config.py; cli/vscode_sync/config.py
    is an identical copy). */
module OsConfig {
  import opened Text
  import opened Paths
  import opened Json

  const OsTags: set<string> := {"macos", "windows", "linux", "unknown"}

  /** get_os: sys.platform classified by prefix, tried in the order darwin, win, linux. */
  function GetOs(platform: string): (tag: string)
    ensures tag in OsTags
  {
    if StartsWith(platform, "darwin") then "macos"
    else if StartsWith(platform, "win") then "windows"
    else if StartsWith(platform, "linux") then "linux"
    else "unknown"
  }

  /** The three prefixes exclude one another, so the order of the tests does
      not matter: each tag holds exactly when its own prefix does. */
  lemma GetOsByPrefix(platform: string)
    ensures GetOs(platform) == "macos" <==> StartsWith(platform, "darwin")
    ensures GetOs(platform) == "windows" <==> StartsWith(platform, "win")
    ensures GetOs(platform) == "linux" <==> StartsWith(platform, "linux")
    ensures GetOs(platform) == "unknown" <==>
      !StartsWith(platform, "darwin") && !StartsWith(platform, "win") && !StartsWith(platform, "linux")
  {
    assert StartsWith(platform, "darwin") ==> platform[0] == 'd';
    assert StartsWith(platform, "win") ==> platform[0] == 'w';
    assert StartsWith(platform, "linux") ==> platform[0] == 'l';
  }

  /** The platform strings the classification is exercised on. */
  lemma GetOsSamples()
    ensures GetOs("darwin") == "macos"
    ensures GetOs("win32") == "windows"
    ensures GetOs("linux") == "linux"
    ensures GetOs("somerandomos") == "unknown"
  {
    assert "win32"[..3] == "win";
    assert "somerandomos"[..3] != "win" && "somerandomos"[..5] != "linux" && "somerandomos"[..6] != "darwin";
  }

  const SettingsTail := "Code/User/settings.json"
  const MacSettings := "Library/Application Support/" + SettingsTail
  const LinuxSettings := ".config/" + SettingsTail

  lemma TailsEndWithSettingsTail()
    ensures EndsWith(MacSettings, SettingsTail) && EndsWith(LinuxSettings, SettingsTail)
  {
    EndsWithConcat("Library/Application Support/", SettingsTail);
    EndsWithConcat(".config/", SettingsTail);
  }

  /** get_vscode_settings_path for the tag get_os() returned: defined for
      macos and linux, for windows only when APPDATA is set and non-empty,
      and never for an unknown platform. */
  function SettingsPath(os: string, home: string, appdata: Option<string>): (p: Option<string>)
    ensures p.Some? <==> os == "macos" || os == "linux" || (os == "windows" && appdata.Some? && appdata.value != "")
    ensures p.Some? ==> EndsWith(p.value, SettingsTail)
    ensures os == "macos" ==> EndsWith(p.value, MacSettings)
    ensures os == "linux" ==> EndsWith(p.value, LinuxSettings)
  {
    TailsEndWithSettingsTail();
    if os == "macos" then
      EndsWithTransitive(JoinPath(home, MacSettings), MacSettings, SettingsTail);
      Some(JoinPath(home, MacSettings))
    else if os == "windows" then
      if appdata.Some? && appdata.value != "" then Some(JoinPath(appdata.value, SettingsTail)) else None
    else if os == "linux" then
      EndsWithTransitive(JoinPath(home, LinuxSettings), LinuxSettings, SettingsTail);
      Some(JoinPath(home, LinuxSettings))
    else None
  }
}
