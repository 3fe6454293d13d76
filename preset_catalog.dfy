/** The preset manager of the first-generation tool (src/presets.py): five
    built-in presets, user presets stored as JSON files in the presets
    directory, and the operations that read, save, list, delete and capture
    them. Built-in presets take precedence over user files of the same name. */
module PresetCatalog {
  import opened Text
  import opened Json
  import opened Files
  import opened Live
  import opened SyncConfigModel
  import opened SyncEngine

  /** One entry of the built-in table, under its dictionary key. */
  datatype BuiltIn = BuiltIn(
    key: string,
    name: string,
    description: string,
    devType: string,
    languages: seq<string>,
    extensions: seq<string>,
    settings: map<string, Json>)

  /** The built-in table, in the dictionary's insertion order. */
  const BuiltIns: seq<BuiltIn> := [
    BuiltIn("frontend", "Frontend Development", "Extensions for modern frontend development", "frontend",
      ["javascript", "typescript", "css", "html"], FrontendExtensions, FrontendSettings),
    BuiltIn("backend", "Backend Development", "Extensions for server-side development", "backend",
      ["python", "javascript", "go", "rust"], BackendExtensions, BackendSettings),
    BuiltIn("fullstack", "Full-Stack Development", "Complete setup for full-stack development", "fullstack",
      ["javascript", "typescript", "python", "html", "css"], FullstackExtensions, FullstackSettings),
    BuiltIn("data-science", "Data Science", "Extensions for data science and machine learning", "data-science",
      ["python", "r", "sql", "jupyter"], DataScienceExtensions, DataScienceSettings),
    BuiltIn("mobile", "Mobile Development", "Extensions for mobile app development", "mobile",
      ["dart", "kotlin", "swift", "javascript"], MobileExtensions, MobileSettings)
  ]

  const FrontendExtensions: seq<string> := [
    "ms-vscode.vscode-typescript-next", "esbenp.prettier-vscode", "bradlc.vscode-tailwindcss",
    "ms-vscode.vscode-eslint", "formulahendry.auto-rename-tag", "christian-kohler.npm-intellisense",
    "ms-vscode.vscode-css-peek", "ritwick.reactjs-code-snippets", "ms-vscode.vscode-json",
    "ms-vscode.vscode-html-css-support"]

  const FrontendSettings: map<string, Json> := map[
    "editor.formatOnSave" := JBool(true),
    "editor.codeActionsOnSave" := JObject(map["source.fixAll.eslint" := JBool(true)]),
    "prettier.semi" := JBool(true),
    "prettier.singleQuote" := JBool(true),
    "emmet.includeLanguages" := JObject(map[
      "javascript" := JString("javascriptreact"), "typescript" := JString("typescriptreact")])]

  const BackendExtensions: seq<string> := [
    "ms-python.python", "ms-python.vscode-pylance", "ms-vscode.vscode-docker",
    "ms-vscode.vscode-restclient", "humao.rest-client", "ms-vscode.vscode-json", "redhat.vscode-yaml",
    "ms-vscode.powershell", "golang.go", "rust-lang.rust-analyzer"]

  const BackendSettings: map<string, Json> := map[
    "python.defaultInterpreterPath" := JString("python3"),
    "python.linting.enabled" := JBool(true),
    "python.linting.pylintEnabled" := JBool(true),
    "python.formatting.provider" := JString("black"),
    "editor.formatOnSave" := JBool(true),
    "files.associations" := JObject(map["*.env" := JString("dotenv"), "Dockerfile*" := JString("dockerfile")])]

  const FullstackExtensions: seq<string> := [
    "ms-vscode.vscode-typescript-next", "esbenp.prettier-vscode", "ms-python.python",
    "ms-python.vscode-pylance", "bradlc.vscode-tailwindcss", "ms-vscode.vscode-eslint",
    "ms-vscode.vscode-docker", "ms-vscode.vscode-restclient", "formulahendry.auto-rename-tag",
    "christian-kohler.npm-intellisense", "ms-vscode.vscode-json", "redhat.vscode-yaml",
    "ritwick.reactjs-code-snippets"]

  const FullstackSettings: map<string, Json> := map[
    "editor.formatOnSave" := JBool(true),
    "editor.codeActionsOnSave" := JObject(map["source.fixAll.eslint" := JBool(true)]),
    "python.defaultInterpreterPath" := JString("python3"),
    "python.formatting.provider" := JString("black"),
    "prettier.semi" := JBool(true),
    "prettier.singleQuote" := JBool(true),
    "emmet.includeLanguages" := JObject(map[
      "javascript" := JString("javascriptreact"), "typescript" := JString("typescriptreact")])]

  const DataScienceExtensions: seq<string> := [
    "ms-python.python", "ms-python.vscode-pylance", "ms-toolsai.jupyter", "ms-toolsai.jupyter-keymap",
    "ms-toolsai.jupyter-renderers", "ms-toolsai.vscode-jupyter-cell-tags",
    "ms-toolsai.vscode-jupyter-slideshow", "ikuyadeu.r", "ms-mssql.mssql", "ms-vscode.vscode-json",
    "redhat.vscode-yaml"]

  const DataScienceSettings: map<string, Json> := map[
    "python.defaultInterpreterPath" := JString("python3"),
    "python.formatting.provider" := JString("black"),
    "jupyter.askForKernelRestart" := JBool(false),
    "jupyter.interactiveWindowMode" := JString("perFile"),
    "python.dataScience.askForKernelRestart" := JBool(false),
    "python.dataScience.sendSelectionToInteractiveWindow" := JBool(true),
    "editor.formatOnSave" := JBool(true)]

  const MobileExtensions: seq<string> := [
    "dart-code.dart-code", "dart-code.flutter", "ms-vscode.vscode-react-native",
    "ms-vscode.vscode-typescript-next", "mathiasfrohlich.kotlin", "swift.swift-lang",
    "ms-vscode.vscode-json", "redhat.vscode-yaml"]

  const MobileSettings: map<string, Json> := map[
    "dart.flutterSdkPath" := JString(""),
    "dart.checkForSdkUpdates" := JBool(true),
    "dart.openDevTools" := JString("flutter"),
    "editor.formatOnSave" := JBool(true),
    "editor.rulers" := JArray([JInt(80), JInt(120)]),
    "files.associations" := JObject(map["*.dart" := JString("dart")])]

  /** list(built_in_presets.keys()) */
  function Keys(bs: seq<BuiltIn>): (keys: seq<string>)
    ensures |keys| == |bs|
    ensures forall i :: 0 <= i < |bs| ==> keys[i] == bs[i].key
  {
    if bs == [] then [] else [bs[0].key] + Keys(bs[1..])
  }

  /** built_in_presets.get(key) */
  function FindBuiltIn(bs: seq<BuiltIn>, key: string): (r: Option<BuiltIn>)
    ensures r.Some? ==> r.value in bs && r.value.key == key
    ensures r.None? <==> key !in Keys(bs)
  {
    if bs == [] then None
    else if bs[0].key == key then Some(bs[0])
    else FindBuiltIn(bs[1..], key)
  }

  /** A built-in preset as the dictionary get_preset hands out. */
  function PresetJson(b: BuiltIn): (doc: Json)
    ensures doc.JObject? && doc.fields.Keys == {"name", "description", "dev_type", "languages", "extensions", "settings"}
  {
    JObject(map[
      "name" := JString(b.name),
      "description" := JString(b.description),
      "dev_type" := JString(b.devType),
      "languages" := JArray(Strings(b.languages)),
      "extensions" := JArray(Strings(b.extensions)),
      "settings" := JObject(b.settings)])
  }

  /** The five keys in order, each preset's dev_type equal to its key. */
  lemma BuiltInCatalog()
    ensures Keys(BuiltIns) == ["frontend", "backend", "fullstack", "data-science", "mobile"]
    ensures forall k :: 0 <= k < |BuiltIns| ==> BuiltIns[k].devType == BuiltIns[k].key
  {
    var keys := Keys(BuiltIns);
    assert |keys| == 5;
    assert keys[0] == "frontend" && keys[1] == "backend" && keys[2] == "fullstack";
    assert keys[3] == "data-science" && keys[4] == "mobile";
  }

  /** No two built-in presets share a key, and none lists an extension twice. */
  lemma BuiltInsDuplicateFree()
    ensures NoDup(Keys(BuiltIns))
    ensures forall k :: 0 <= k < |BuiltIns| ==> NoDup(BuiltIns[k].extensions)
  {
    KeysDuplicateFree();
    BuiltInExtensionLists();
  }

  lemma KeysDuplicateFree()
    ensures NoDup(Keys(BuiltIns))
  {
    BuiltInCatalog();
    KeyNamesDuplicateFree(["frontend", "backend", "fullstack", "data-science", "mobile"]);
  }

  /** The five keys have five different lengths. */
  lemma KeyNamesDuplicateFree(keys: seq<string>)
    requires keys == ["frontend", "backend", "fullstack", "data-science", "mobile"]
    ensures NoDup(keys)
  {
    assert |keys[0]| == 8 && |keys[1]| == 7 && |keys[2]| == 9 && |keys[3]| == 12 && |keys[4]| == 6;
  }

  lemma BuiltInExtensionLists()
    ensures forall k :: 0 <= k < |BuiltIns| ==> NoDup(BuiltIns[k].extensions)
  {
    ExtensionListsDuplicateFree();
    assert BuiltIns[0].extensions == FrontendExtensions;
    assert BuiltIns[1].extensions == BackendExtensions;
    assert BuiltIns[2].extensions == FullstackExtensions;
    assert BuiltIns[3].extensions == DataScienceExtensions;
    assert BuiltIns[4].extensions == MobileExtensions;
  }

  lemma ExtensionListsDuplicateFree()
    ensures NoDup(FrontendExtensions) && NoDup(BackendExtensions) && NoDup(FullstackExtensions)
    ensures NoDup(DataScienceExtensions) && NoDup(MobileExtensions)
  {
    FrontendDuplicateFree();
    BackendDuplicateFree();
    FullstackDuplicateFree();
    DataScienceDuplicateFree();
    MobileDuplicateFree();
  }

  lemma FrontendDuplicateFree() ensures NoDup(FrontendExtensions) {}
  lemma BackendDuplicateFree() ensures NoDup(BackendExtensions) {}
  lemma FullstackDuplicateFree() ensures NoDup(FullstackExtensions) {}
  lemma DataScienceDuplicateFree() ensures NoDup(DataScienceExtensions) {}
  lemma MobileDuplicateFree() ensures NoDup(MobileExtensions) {}

  /** Each built-in preset already contains the extensions the engine
      recommends for its development type. */
  lemma BuiltInsCoverRecommendations()
    ensures forall k, x :: 0 <= k < |BuiltIns| && x in TypeExtensions(BuiltIns[k].devType) ==> x in BuiltIns[k].extensions
  {
  }

  /** With unique keys, looking a built-in key up finds its entry. */
  lemma {:induction false} FindBuiltInEntry(bs: seq<BuiltIn>, k: nat)
    requires k < |bs| && NoDup(Keys(bs))
    ensures FindBuiltIn(bs, bs[k].key) == Some(bs[k])
  {
    if k > 0 {
      assert Keys(bs)[0] != Keys(bs)[k];
      assert Keys(bs[1..]) == Keys(bs)[1..];
      FindBuiltInEntry(bs[1..], k - 1);
    }
  }

  // ---------------------------------------------------------------- timestamps

  /** datetime.isoformat(): "YYYY-MM-DDTHH:MM:SS", followed by ".ffffff" only
      when the microseconds are not zero. */
  function IsoFormat(t: DateTime): (s: string)
    requires ValidTime(t)
    ensures |s| == if t.microsecond == 0 then 19 else 26
  {
    IsoDate(t) + "T" + IsoTime(t) + (if t.microsecond == 0 then "" else "." + Padded(t.microsecond, 6))
  }

  function IsoDate(t: DateTime): (s: string)
    requires ValidTime(t)
    ensures |s| == 10
  {
    Padded(t.year, 4) + "-" + Padded(t.month, 2) + "-" + Padded(t.day, 2)
  }

  function IsoTime(t: DateTime): (s: string)
    requires ValidTime(t)
    ensures |s| == 8
  {
    Padded(t.hour, 2) + ":" + Padded(t.minute, 2) + ":" + Padded(t.second, 2)
  }

  lemma IsoDateParts(t: DateTime)
    requires ValidTime(t)
    ensures var s := IsoDate(t);
      s[..4] == Padded(t.year, 4) && s[5..7] == Padded(t.month, 2) && s[8..] == Padded(t.day, 2)
  {
    var s := IsoDate(t);
    assert s[..4] == Padded(t.year, 4);
    assert s[5..7] == Padded(t.month, 2);
    assert s[8..] == Padded(t.day, 2);
  }

  lemma IsoTimeParts(t: DateTime)
    requires ValidTime(t)
    ensures var s := IsoTime(t);
      s[..2] == Padded(t.hour, 2) && s[3..5] == Padded(t.minute, 2) && s[6..] == Padded(t.second, 2)
  {
    var s := IsoTime(t);
    assert s[..2] == Padded(t.hour, 2);
    assert s[3..5] == Padded(t.minute, 2);
    assert s[6..] == Padded(t.second, 2);
  }

  lemma IsoParts(t: DateTime)
    requires ValidTime(t)
    ensures var s := IsoFormat(t);
      s[..10] == IsoDate(t) && s[11..19] == IsoTime(t)
      && (t.microsecond != 0 ==> s[20..] == Padded(t.microsecond, 6))
  {
    var tail := if t.microsecond == 0 then "" else "." + Padded(t.microsecond, 6);
    var s := IsoFormat(t);
    assert s == IsoDate(t) + "T" + IsoTime(t) + tail;
    assert s[..10] == IsoDate(t);
    assert s[11..19] == IsoTime(t);
    assert s[19..] == tail;
  }

  /** Two isoformat strings are equal exactly when the times are: the
      created_at stamp identifies the moment a preset was saved. */
  lemma IsoFormatIdentifiesTime(a: DateTime, b: DateTime)
    requires ValidTime(a) && ValidTime(b)
    ensures IsoFormat(a) == IsoFormat(b) <==> a == b
  {
    if IsoFormat(a) == IsoFormat(b) {
      IsoParts(a);
      IsoParts(b);
      IsoDateParts(a);
      IsoDateParts(b);
      IsoTimeParts(a);
      IsoTimeParts(b);
      assert Pow10(6) == 1000000;
      SameDigits(a.year, b.year, 4);
      SameDigits(a.month, b.month, 2);
      SameDigits(a.day, b.day, 2);
      SameDigits(a.hour, b.hour, 2);
      SameDigits(a.minute, b.minute, 2);
      SameDigits(a.second, b.second, 2);
      if a.microsecond != 0 {
        SameDigits(a.microsecond, b.microsecond, 6);
      }
    }
  }

  lemma SameDigits(x: nat, y: nat, width: nat)
    requires x < Pow10(width) && y < Pow10(width) && Padded(x, width) == Padded(y, width)
    ensures x == y
  {
  }

  // ---------------------------------------------------------------- PresetManager

  /** The dictionary create_preset_from_current assembles, before it is
      stamped with created_at. */
  function CurrentPreset(env: Env, files: map<string, Content>, settingsPath: string,
                         name: string, description: string): map<string, Json> {
    map[
      "name" := JString(name),
      "description" := JString(description),
      "dev_type" := JString("custom"),
      "languages" := JArray([]),
      "extensions" := JArray(Strings(InstalledExtensions(env))),
      "settings" := SettingsDocument(files, settingsPath)]
  }

  class PresetManager {
    const config: ConfigManager

    /** PresetManager(config_manager): the given manager, or a fresh one that
        loads the default configuration file. */
    constructor (given: Option<ConfigManager>, files: map<string, Content>, home: string)
      ensures given.Some? ==> config == given.value
      ensures given.None? ==> config.config == Load(files, home, None)
    {
      if given.Some? {
        config := given.value;
      } else {
        config := new ConfigManager(files, home, None);
      }
    }

    /** get_preset: the built-in preset of that key; otherwise the decoded
        user file, None when it is missing, unreadable or holds null. */
    function GetPreset(files: map<string, Content>, name: string): (r: Option<Json>)
      ensures r.Some? ==> r.value != JNull
      ensures FindBuiltIn(BuiltIns, name).Some? ==> r == Some(PresetJson(FindBuiltIn(BuiltIns, name).value))
      ensures FindBuiltIn(BuiltIns, name).None? && config.PresetPath(name) !in files ==> r.None?
      ensures var path := config.PresetPath(name);
        FindBuiltIn(BuiltIns, name).None? && path in files && !files[path].Text? ==> r.None?
      ensures var path := config.PresetPath(name);
        FindBuiltIn(BuiltIns, name).None? && path in files && files[path].Text? && files[path].doc != JNull
        ==> r == Some(files[path].doc)
    {
      match FindBuiltIn(BuiltIns, name)
      case Some(b) => Some(PresetJson(b))
      case None =>
        var path := config.PresetPath(name);
        if path !in files then None
        else match DecodeJson(files[path])
          case None => None
          case Some(doc) => if doc.JNull? then None else Some(doc)
    }

    /** save_preset: stamps the dictionary with the time of the call (the
        caller's dictionary is changed too, even when the write then fails)
        and writes it to the preset's file. */
    method SavePreset(m: Machine, name: string, preset: map<string, Json>, now: DateTime)
      returns (stamped: map<string, Json>, ok: bool)
      requires ValidTime(now)
      modifies m
      ensures stamped == preset["created_at" := JString(IsoFormat(now))]
      ensures ok == m.env.writable(config.PresetPath(name))
      ensures m.State() == if ok then old(m.State()).(files := old(m.files)[config.PresetPath(name) := Text(JObject(stamped))])
                           else old(m.State())
    {
      stamped := preset["created_at" := JString(IsoFormat(now))];
      ok := m.Write(config.PresetPath(name), Text(JObject(stamped)));
    }

    /** list_presets: the built-in keys and the user preset names, sorted,
        each once. */
    method ListPresets(paths: set<string>) returns (names: seq<string>)
      ensures StrictlySorted(names)
      ensures forall x :: x in names <==> x in Keys(BuiltIns) || x in GlobStems(paths, config.config.presetsDir, "", ".json")
    {
      var user := config.ListPresets(paths);
      names := SortedUnique(Keys(BuiltIns) + user);
    }

    /** What delete_preset returns: False for a built-in key or a missing
        file, True once the file is unlinked, None where the unlink raises. */
    function DeleteOutcome(files: map<string, Content>, env: Env, name: string): Option<bool> {
      if FindBuiltIn(BuiltIns, name).Some? || config.PresetPath(name) !in files then Some(false)
      else if env.writable(config.PresetPath(name)) then Some(true)
      else None
    }

    /** delete_preset: never touches a built-in preset; removes the user file
        when it exists. */
    method DeletePreset(m: Machine, name: string) returns (r: Option<bool>)
      modifies m
      ensures r == DeleteOutcome(old(m.files), m.env, name)
      ensures m.State() == if r == Some(true) then old(m.State()).(files := old(m.files) - {config.PresetPath(name)})
                           else old(m.State())
    {
      if FindBuiltIn(BuiltIns, name).Some? {
        return Some(false);
      }
      var path := config.PresetPath(name);
      if path in m.files {
        var ok := m.Remove(path);
        r := if ok then Some(true) else None;
      } else {
        r := Some(false);
      }
    }

    /** create_preset_from_current: captures the installed extensions and the
        settings file, then saves the preset; the returned dictionary carries
        the time of the save, which overwrites the one it was built with. */
    method CreatePresetFromCurrent(m: Machine, sync: VSCodeSync, name: string, description: string,
                                   built: DateTime, saved: DateTime)
      returns (preset: map<string, Json>, ok: bool)
      requires ValidTime(built) && ValidTime(saved)
      modifies m
      ensures preset == CurrentPreset(m.env, old(m.files), sync.settingsPath, name, description)["created_at" := JString(IsoFormat(saved))]
      ensures ok == m.env.writable(config.PresetPath(name))
      ensures m.State() == if ok then old(m.State()).(files := old(m.files)[config.PresetPath(name) := Text(JObject(preset))])
                           else old(m.State())
    {
      var captured := CurrentPreset(m.env, m.files, sync.settingsPath, name, description);
      var draft := captured["created_at" := JString(IsoFormat(built))];
      preset, ok := SavePreset(m, name, draft, saved);
      assert preset == captured["created_at" := JString(IsoFormat(saved))];
    }
  }

  /** A user file cannot replace a built-in preset: get_preset returns the
      built-in one whatever the presets directory holds. */
  lemma BuiltInShadowsUserFile(pm: PresetManager, files: map<string, Content>, k: nat)
    requires k < |BuiltIns|
    ensures pm.GetPreset(files, BuiltIns[k].key) == Some(PresetJson(BuiltIns[k]))
  {
    BuiltInsDuplicateFree();
    FindBuiltInEntry(BuiltIns, k);
  }

  /** A preset saved under a name that is not built in is read back as the
      stamped dictionary. */
  lemma GetAfterSave(pm: PresetManager, files: map<string, Content>, name: string,
                     preset: map<string, Json>, now: DateTime)
    requires ValidTime(now) && name !in Keys(BuiltIns)
    ensures var stamped := preset["created_at" := JString(IsoFormat(now))];
      pm.GetPreset(files[pm.config.PresetPath(name) := Text(JObject(stamped))], name) == Some(JObject(stamped))
  {
  }

  /** Once its file is gone, a user preset is no longer found. */
  lemma GetAfterDelete(pm: PresetManager, files: map<string, Content>, name: string)
    requires name !in Keys(BuiltIns)
    ensures pm.GetPreset(files - {pm.config.PresetPath(name)}, name) == None
  {
  }

  /** Deleting twice: the second call finds nothing and returns False. */
  lemma DeleteTwice(pm: PresetManager, files: map<string, Content>, env: Env, name: string)
    ensures pm.DeleteOutcome(files - {pm.config.PresetPath(name)}, env, name) == Some(false)
  {
  }
}
