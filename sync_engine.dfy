/** The first-generation engine: class VSCodeSync of src/main.py (src/vscode_sync_cli.py
    is a byte-identical copy). Export collects the installed extensions and the
    settings document into a bundle {metadata, extensions, settings} and writes it
    as JSON or, for a ".zip" suffix, as an archive; import is a flag-driven
    pipeline: existence check, decode, optional backup, install loop, settings
    replacement, with the overall result the conjunction of the steps that ran. */
module SyncEngine {
  import opened Text
  import opened Paths
  import opened Json
  import opened Files
  import opened Live

  /** The archive entry the ZIP encoder writes and the ZIP decoder reads. */
  const ConfigEntry := "vscode_config.json"
  /** The archive entry holding a raw copy of the settings file (never read back). */
  const SettingsEntry := "settings.json"
  /** The suffix that turns the settings path into its backup path. */
  const BackupSuffix := ".backup.json"
  const ToolVersion := "1.0.0"

  // ---------------------------------------------------------------- collection

  /** An extension id as the listing parser yields it. */
  predicate IsCleanId(id: string) {
    id != "" && IsStripped(id) && '\n' !in id
  }

  /** [l.strip() for l in lines if l.strip()] */
  function KeepNonBlank(lines: seq<string>): (ids: seq<string>)
    ensures |ids| <= |lines|
    ensures forall i :: 0 <= i < |ids| ==> ids[i] != "" && IsStripped(ids[i])
    ensures (forall k :: 0 <= k < |lines| ==> '\n' !in lines[k]) ==>
              forall i :: 0 <= i < |ids| ==> '\n' !in ids[i]
  {
    if lines == [] then []
    else
      var rest := KeepNonBlank(lines[1..]);
      var id := Strip(lines[0]);
      StripKeepsChars(lines[0], '\n');
      if id != "" then [id] + rest else rest
  }

  /** The parse of `code --list-extensions` output in get_installed_extensions:
      stdout.strip().split('\n'), each line stripped, blank lines dropped. */
  function ParseExtensionList(stdout: string): (ids: seq<string>)
    ensures forall i :: 0 <= i < |ids| ==> IsCleanId(ids[i])
  {
    KeepNonBlank(Split(Strip(stdout), '\n'))
  }

  lemma {:induction false} KeepNonBlankOfClean(ids: seq<string>)
    requires forall i :: 0 <= i < |ids| ==> IsCleanId(ids[i])
    ensures KeepNonBlank(ids) == ids
  {
    if ids != [] {
      var rest := ids[1..];
      assert forall i :: 0 <= i < |rest| ==> IsCleanId(rest[i]) by {
        forall i | 0 <= i < |rest| ensures IsCleanId(rest[i]) {
          assert rest[i] == ids[i + 1];
        }
      }
      KeepNonBlankOfClean(rest);
      assert IsCleanId(ids[0]);
      assert Strip(ids[0]) == ids[0];
      assert ids == [ids[0]] + rest;
    }
  }

  lemma ParseEmptyListing()
    ensures ParseExtensionList("\n") == []
  {
    assert "\n"[1..] == "";
    assert Strip("\n") == "";
    assert Split("", '\n') == [""];
    assert Strip("") == "";
    assert KeepNonBlank([""]) == [];
  }

  /** Clean ids printed one per line parse back to the same ids, in order. */
  lemma ParseListedIds(ids: seq<string>)
    requires forall i :: 0 <= i < |ids| ==> IsCleanId(ids[i])
    ensures ParseExtensionList(Join(ids, '\n') + "\n") == ids
  {
    if ids == [] {
      assert Join(ids, '\n') + "\n" == "\n";
      ParseEmptyListing();
    } else {
      var j := Join(ids, '\n');
      JoinEnds(ids);
      assert IsStripped(j);
      StripDropsFinalNewline(j);
      assert Strip(j + "\n") == j;
      SplitJoin(ids, '\n');
      assert Split(j, '\n') == ids;
      KeepNonBlankOfClean(ids);
    }
  }

  /** The listing "ext1\next2\next3\n" parses to the three ids. */
  lemma ListingOfThreeIds()
    ensures ParseExtensionList("ext1\next2\next3\n") == ["ext1", "ext2", "ext3"]
  {
    var ids := ["ext1", "ext2", "ext3"];
    assert ids[1..][1..] == ["ext3"];
    assert Join(ids[1..], '\n') == "ext2" + "\n" + "ext3";
    assert Join(ids, '\n') + "\n" == "ext1\next2\next3\n";
    assert IsCleanId(ids[0]) && IsCleanId(ids[1]) && IsCleanId(ids[2]);
    ParseListedIds(ids);
  }

  /** get_installed_extensions: [] when the CLI is unavailable, the listing
      times out or exits non-zero; otherwise the parsed listing. */
  function InstalledExtensions(env: Env): (ids: seq<string>)
    ensures forall i :: 0 <= i < |ids| ==> IsCleanId(ids[i])
    ensures !env.cliAvailable || env.listTimesOut || env.listExit != 0 ==> ids == []
  {
    if !env.cliAvailable || env.listTimesOut || env.listExit != 0 then []
    else ParseExtensionList(env.listStdout)
  }

  /** get_settings: the decoded settings file, {} when it is missing or unreadable. */
  function SettingsDocument(files: map<string, Content>, settingsPath: string): Json {
    if settingsPath in files && files[settingsPath].Text? then files[settingsPath].doc
    else JObject(map[])
  }

  // ---------------------------------------------------------------- bundle codec

  /** The export bundle {metadata, extensions, settings}. */
  function Bundle(system: string, now: string, extensions: seq<string>, settings: Json): Json {
    JObject(map[
      "metadata" := JObject(map[
        "created_at" := JString(now),
        "system" := JString(system),
        "vscode_sync_version" := JString(ToolVersion)]),
      "extensions" := JArray(Strings(extensions)),
      "settings" := settings])
  }

  /** Path(p).suffix.lower() == '.zip' */
  predicate IsZipPath(p: string) {
    Lower(Suffix(p)) == ".zip"
  }

  /** _export_to_zip / _export_to_json: the content written for a bundle. */
  function Encode(bundle: Json, outputPath: string, settingsFile: Option<Content>): Content {
    if IsZipPath(outputPath) then
      var entries := map[ConfigEntry := Text(bundle)];
      Archive(if settingsFile.Some? then entries[SettingsEntry := settingsFile.value] else entries)
    else Text(bundle)
  }

  /** _import_from_zip / _import_from_json, chosen by the same suffix test. */
  function Decode(c: Content, inputPath: string): Option<Json> {
    if IsZipPath(inputPath) then DecodeZipEntry(c, ConfigEntry) else DecodeJson(c)
  }

  /** Decoding what was encoded for the same path gives the bundle back, in both
      formats: the ZIP encoder and decoder agree on the entry name. */
  lemma DecodeEncode(bundle: Json, path: string, settingsFile: Option<Content>)
    ensures Decode(Encode(bundle, path, settingsFile), path) == Some(bundle)
  {
    if IsZipPath(path) {
      var entries := Encode(bundle, path, settingsFile).entries;
      assert ConfigEntry != SettingsEntry;
      assert ConfigEntry in entries && entries[ConfigEntry] == Text(bundle);
    }
  }

  /** The bundle has exactly the three top-level keys, carries the extensions
      in order and the settings as given. */
  lemma BundleShape(system: string, now: string, extensions: seq<string>, settings: Json)
    ensures Bundle(system, now, extensions, settings).fields.Keys == {"metadata", "extensions", "settings"}
    ensures Bundle(system, now, extensions, settings).fields["extensions"] == JArray(Strings(extensions))
    ensures Bundle(system, now, extensions, settings).fields["settings"] == settings
  {
  }

  // ---------------------------------------------------------------- import steps

  /** _install_extensions on a truthy or falsy value: Some(false) with no call
      when the CLI is unavailable, Some(true) for an empty value, otherwise one
      call per item; Some(no failures), or None when the step raises. */
  function InstallStep(w: World, env: Env, extensions: Json): (Option<bool>, World) {
    if !env.cliAvailable then (Some(false), w)
    else if !Truthy(extensions) then (Some(true), w)
    else match Iterate(extensions)
      case None => (None, w)
      case Some(items) =>
        var run := RunInstalls(items, env, true);
        (if run.crashed then None else Some(run.failed == []),
         AfterInstalls(w, run.attempted, env, true))
  }

  const SettingsTail := "Code/User/settings.json"

  /** The settings path _get_settings_path picks for platform.system(). */
  function DefaultSettingsPath(system: string, home: string, appdata: string): (p: string)
    ensures EndsWith(p, SettingsTail)
  {
    var rel := if system == "Darwin" then "Library/Application Support/" + SettingsTail
               else if system == "Windows" then SettingsTail
               else ".config/" + SettingsTail;
    EndsWithConcat(if system == "Darwin" then "Library/Application Support/"
                   else if system == "Windows" then "" else ".config/", SettingsTail);
    var p := JoinPath(if system == "Windows" then appdata else home, rel);
    EndsWithTransitive(p, rel, SettingsTail);
    p
  }

  class VSCodeSync {
    const system: string
    const settingsPath: string

    /** Fixes the platform name and the settings path; APPDATA must be set on
        Windows, where Path(None) would raise. */
    constructor (system: string, home: string, appdata: Option<string>)
      requires system == "Windows" ==> appdata.Some?
      ensures this.system == system
      ensures settingsPath == DefaultSettingsPath(system, home, if appdata.Some? then appdata.value else "")
    {
      this.system := system;
      this.settingsPath := DefaultSettingsPath(system, home, if appdata.Some? then appdata.value else "");
    }

    /** settings_path.with_suffix('.backup.json') */
    function BackupPath(): string {
      WithSuffix(settingsPath, BackupSuffix)
    }

    function SettingsFile(files: map<string, Content>): Option<Content> {
      if settingsPath in files then Some(files[settingsPath]) else None
    }

    /** The bundle export_config assembles. */
    function ExportedBundle(env: Env, files: map<string, Content>, includeSettings: bool, now: string): Json {
      Bundle(system, now, InstalledExtensions(env),
             if includeSettings then SettingsDocument(files, settingsPath) else JObject(map[]))
    }

    /** export_config: collection never fails; the only failure is the write. */
    method ExportConfig(m: Machine, outputPath: string, includeSettings: bool, now: string) returns (ok: bool)
      modifies m
      ensures ok == m.env.writable(outputPath)
      ensures m.State() ==
        if ok then old(m.State()).(files := old(m.files)[outputPath :=
          Encode(ExportedBundle(m.env, old(m.files), includeSettings, now), outputPath, SettingsFile(old(m.files)))])
        else old(m.State())
    {
      var extensions := InstalledExtensions(m.env);
      var settings := if includeSettings then SettingsDocument(m.files, settingsPath) else JObject(map[]);
      var config := Bundle(system, now, extensions, settings);
      var content: Content;
      if IsZipPath(outputPath) {
        var entries := map[ConfigEntry := Text(config)];
        if settingsPath in m.files {
          entries := entries[SettingsEntry := m.files[settingsPath]];
        }
        content := Archive(entries);
      } else {
        content := Text(config);
      }
      ok := m.Write(outputPath, content);
    }

    /** _install_extensions: every item is attempted in order; a failure or a
        timeout is recorded and the loop goes on. */
    method InstallExtensions(m: Machine, extensions: Json) returns (r: Option<bool>)
      modifies m
      ensures (r, m.State()) == InstallStep(old(m.State()), m.env, extensions)
    {
      if !m.env.cliAvailable {
        return Some(false);
      }
      if !Truthy(extensions) {
        return Some(true);
      }
      var items := Iterate(extensions);
      if items.None? {
        return None;
      }
      var xs := items.value;
      var failed: seq<string> := [];
      ghost var attempted: seq<string> := [];
      var i := 0;
      while i < |xs|
        invariant 0 <= i <= |xs|
        invariant RunInstalls(xs[..i], m.env, true) == InstallRun(attempted, failed, false)
        invariant m.State() == AfterInstalls(old(m.State()), attempted, m.env, true)
      {
        RunInstallsStep(xs, i, m.env, true);
        if !xs[i].JString? {
          RunInstallsCrashPersists(xs, i + 1, m.env, true);
          return None;
        }
        var id := xs[i].s;
        var ok := m.Install(id, true);
        AfterInstallsStep(old(m.State()), attempted, id, m.env, true);
        if !ok {
          failed := failed + [id];
        }
        attempted := attempted + [id];
        i := i + 1;
      }
      assert xs[..i] == xs;
      r := Some(failed == []);
    }

    /** _update_settings: the document replaces the settings file wholesale. */
    function SettingsStep(w: World, env: Env, settings: Json): (bool, World) {
      if env.writable(settingsPath) then (true, w.(files := w.files[settingsPath := Text(settings)]))
      else (false, w)
    }

    /** The backup copy of import_config: made only when requested and the
        settings file exists; a failed copy aborts the import. */
    function BackupStep(w: World, env: Env, backup: bool): (bool, World) {
      if backup && settingsPath in w.files then
        if env.writable(BackupPath()) then (true, w.(files := w.files[BackupPath() := w.files[settingsPath]]))
        else (false, w)
      else (true, w)
    }

    /** The steps of import_config after the backup: reading a key of a
        document that is not an object raises; the extensions are installed
        when requested and truthy, the settings written when requested and
        truthy; the result is the conjunction. */
    function ApplyStep(w: World, env: Env, config: Json, installExtensions: bool, updateSettings: bool): (bool, World) {
      if (installExtensions || updateSettings) && !config.JObject? then (false, w)
      else
        var exts := if config.JObject? then GetOr(config.fields, "extensions", JNull) else JNull;
        var installed := if installExtensions && Truthy(exts) then InstallStep(w, env, exts) else (Some(true), w);
        if installed.0.None? then (false, installed.1)
        else
          var settings := if config.JObject? then GetOr(config.fields, "settings", JNull) else JNull;
          var written := if updateSettings && Truthy(settings) then SettingsStep(installed.1, env, settings)
                         else (true, installed.1);
          (installed.0.value && written.0, written.1)
    }

    /** import_config as a function of the state before it. */
    function ImportSpec(w: World, env: Env, inputPath: string,
                        installExtensions: bool, updateSettings: bool, backup: bool): (bool, World)
    {
      if inputPath !in w.files then (false, w)
      else
        var decoded := Decode(w.files[inputPath], inputPath);
        if decoded.None? || !Truthy(decoded.value) then (false, w)
        else
          var saved := BackupStep(w, env, backup);
          if !saved.0 then (false, w)
          else ApplyStep(saved.1, env, decoded.value, installExtensions, updateSettings)
    }

    /** import_config. An exception inside the pipeline makes it return false
        with the effects made so far left in place. */
    method ImportConfig(m: Machine, inputPath: string, installExtensions: bool,
                        updateSettings: bool, backup: bool) returns (ok: bool)
      modifies m
      ensures (ok, m.State()) == ImportSpec(old(m.State()), m.env, inputPath, installExtensions, updateSettings, backup)
    {
      if inputPath !in m.files {
        return false;
      }
      var config := Decode(m.files[inputPath], inputPath);
      if config.None? || !Truthy(config.value) {
        return false;
      }
      if backup && settingsPath in m.files {
        var copied := m.Write(BackupPath(), m.files[settingsPath]);
        if !copied {
          return false;
        }
      }
      var success := true;
      if installExtensions {
        if !config.value.JObject? {
          return false;
        }
        var exts := GetOr(config.value.fields, "extensions", JNull);
        if Truthy(exts) {
          var r := InstallExtensions(m, exts);
          if r.None? {
            return false;
          }
          success := success && r.value;
        }
      }
      if updateSettings {
        if !config.value.JObject? {
          return false;
        }
        var settings := GetOr(config.value.fields, "settings", JNull);
        if Truthy(settings) {
          var written := m.Write(settingsPath, Text(settings));
          success := success && written;
        }
      }
      ok := success;
    }
  }

  // ---------------------------------------------------------------- import properties

  /** A missing input, an undecodable document or a falsy one fails the import
      before any backup, install or write. */
  lemma ImportFailsBeforeAnyChange(sync: VSCodeSync, w: World, env: Env, inputPath: string,
                                   installExtensions: bool, updateSettings: bool, backup: bool)
    requires inputPath !in w.files
          || Decode(w.files[inputPath], inputPath).None?
          || !Truthy(Decode(w.files[inputPath], inputPath).value)
    ensures sync.ImportSpec(w, env, inputPath, installExtensions, updateSettings, backup) == (false, w)
  {
  }

  /** The backup path is never the settings path itself. */
  lemma BackupPathDiffers(sync: VSCodeSync)
    ensures sync.BackupPath() != sync.settingsPath
  {
    assert BackupSuffix[1..][6] == '.';
    WithDoubleSuffixIsNewPath(sync.settingsPath, BackupSuffix);
  }

  /** The install step never touches the files. */
  lemma InstallStepKeepsFiles(w: World, env: Env, extensions: Json)
    ensures InstallStep(w, env, extensions).1.files == w.files
  {
  }

  /** The steps after the backup touch no file but the settings file, and
      touch that one only by writing the given settings document. */
  lemma ApplyStepFiles(sync: VSCodeSync, w: World, env: Env, config: Json,
                       installExtensions: bool, updateSettings: bool)
    ensures var r := sync.ApplyStep(w, env, config, installExtensions, updateSettings);
      r.1.files == w.files
      || (config.JObject? && r.1.files == w.files[sync.settingsPath := Text(GetOr(config.fields, "settings", JNull))])
  {
    var exts := if config.JObject? then GetOr(config.fields, "extensions", JNull) else JNull;
    InstallStepKeepsFiles(w, env, exts);
  }

  /** With backup requested and a settings file present, a successful import
      leaves in the backup path the settings document as it was before the
      import, even when the import then replaces the settings file. A backup
      that cannot be written fails the import with nothing changed. Without a
      backup, the backup path is left as it was. */
  lemma ImportBackupHoldsOldSettings(sync: VSCodeSync, w: World, env: Env, inputPath: string,
                                     installExtensions: bool, updateSettings: bool, backup: bool)
    requires inputPath in w.files
    requires Decode(w.files[inputPath], inputPath).Some?
    requires Truthy(Decode(w.files[inputPath], inputPath).value)
    ensures var r := sync.ImportSpec(w, env, inputPath, installExtensions, updateSettings, backup);
      if backup && sync.settingsPath in w.files then
        if env.writable(sync.BackupPath()) then
          sync.BackupPath() in r.1.files && r.1.files[sync.BackupPath()] == w.files[sync.settingsPath]
        else r == (false, w)
      else
        (sync.BackupPath() in r.1.files <==> sync.BackupPath() in w.files)
        && (sync.BackupPath() in w.files ==> r.1.files[sync.BackupPath()] == w.files[sync.BackupPath()])
  {
    BackupPathDiffers(sync);
    var saved := sync.BackupStep(w, env, backup);
    ApplyStepFiles(sync, saved.1, env, Decode(w.files[inputPath], inputPath).value, installExtensions, updateSettings);
  }

  /** Import writes no file other than the settings file and its backup. */
  lemma ImportWritesOnlySettingsAndBackup(sync: VSCodeSync, w: World, env: Env, inputPath: string,
                                          installExtensions: bool, updateSettings: bool, backup: bool, p: string)
    requires p != sync.settingsPath && p != sync.BackupPath()
    ensures var r := sync.ImportSpec(w, env, inputPath, installExtensions, updateSettings, backup);
      (p in r.1.files <==> p in w.files) && (p in w.files ==> r.1.files[p] == w.files[p])
  {
    if inputPath in w.files {
      var decoded := Decode(w.files[inputPath], inputPath);
      if decoded.Some? && Truthy(decoded.value) {
        var saved := sync.BackupStep(w, env, backup);
        ApplyStepFiles(sync, saved.1, env, decoded.value, installExtensions, updateSettings);
      }
    }
  }

  /** The install step on a non-empty list of ids: every id is attempted, in
      order, when the CLI is available, and the step succeeds exactly when the
      CLI is available and no call fails. */
  lemma InstallStepOfIds(w: World, env: Env, ids: seq<string>)
    requires ids != []
    ensures var r := InstallStep(w, env, JArray(Strings(ids)));
      && r.1 == (if env.cliAvailable then AfterInstalls(w, ids, env, true) else w)
      && r.0.Some?
      && (r.0.value <==> env.cliAvailable && forall id :: id in ids ==> !Fails(env, true, id))
  {
    RunInstallsAttemptsAll(ids, env, true);
    var run := RunInstalls(Strings(ids), env, true);
    assert Truthy(JArray(Strings(ids)));
    assert run.failed == [] <==> forall id :: id in ids ==> !Fails(env, true, id) by {
      if run.failed != [] {
        assert run.failed[0] in run.failed;
      }
    }
  }

  /** The bundle an export writes, with the given ids and settings. */
  function BundleDoc(metadata: Json, ids: seq<string>, settings: Json): Json {
    JObject(map["metadata" := metadata, "extensions" := JArray(Strings(ids)), "settings" := settings])
  }

  /** Applying a bundle with a list of ids and a settings document: the ids are
      installed in order when requested and non-empty (none when the CLI is
      unavailable); the settings file is replaced wholesale by the bundle's
      document when requested and truthy; the result is true exactly when
      every step that ran succeeded. */
  lemma ApplyBundle(sync: VSCodeSync, w: World, env: Env, installExtensions: bool, updateSettings: bool,
                    ids: seq<string>, settings: Json, metadata: Json)
    ensures var r := sync.ApplyStep(w, env, BundleDoc(metadata, ids, settings), installExtensions, updateSettings);
      var installing := installExtensions && ids != [] && env.cliAvailable;
      var writing := updateSettings && Truthy(settings);
      && r.1.installLog == w.installLog + (if installing then ids else [])
      && r.0 == ((!(installExtensions && ids != []) || (env.cliAvailable && forall id :: id in ids ==> !Fails(env, true, id)))
                 && (!writing || env.writable(sync.settingsPath)))
      && r.1.files == (if writing && env.writable(sync.settingsPath) then w.files[sync.settingsPath := Text(settings)] else w.files)
  {
    var doc := BundleDoc(metadata, ids, settings);
    assert "extensions" != "settings" && "extensions" != "metadata" && "settings" != "metadata";
    assert GetOr(doc.fields, "extensions", JNull) == JArray(Strings(ids));
    assert GetOr(doc.fields, "settings", JNull) == settings;
    if installExtensions && ids != [] {
      InstallStepOfIds(w, env, ids);
    }
  }

  /** A bundle with a list of ids and a settings document, once the backup (if
      any) succeeded: the ids are installed in order, the settings file is
      replaced wholesale, and the import succeeds exactly when every step that
      ran succeeded. */
  lemma ImportOfWellFormedBundle(sync: VSCodeSync, w: World, env: Env, inputPath: string,
                                 installExtensions: bool, updateSettings: bool, backup: bool,
                                 ids: seq<string>, settings: Json, metadata: Json)
    requires inputPath in w.files
    requires Decode(w.files[inputPath], inputPath) == Some(BundleDoc(metadata, ids, settings))
    requires backup && sync.settingsPath in w.files ==> env.writable(sync.BackupPath())
    ensures var r := sync.ImportSpec(w, env, inputPath, installExtensions, updateSettings, backup);
      var installing := installExtensions && ids != [] && env.cliAvailable;
      var writing := updateSettings && Truthy(settings);
      && r.1.installLog == w.installLog + (if installing then ids else [])
      && r.0 == ((!(installExtensions && ids != []) || (env.cliAvailable && forall id :: id in ids ==> !Fails(env, true, id)))
                 && (!writing || env.writable(sync.settingsPath)))
      && (writing && env.writable(sync.settingsPath) ==> SettingsDocument(r.1.files, sync.settingsPath) == settings)
      && (!(writing && env.writable(sync.settingsPath)) ==>
            (sync.settingsPath in r.1.files <==> sync.settingsPath in w.files)
            && (sync.settingsPath in w.files ==> r.1.files[sync.settingsPath] == w.files[sync.settingsPath]))
  {
    BackupPathDiffers(sync);
    assert "metadata" in BundleDoc(metadata, ids, settings).fields;
    var saved := sync.BackupStep(w, env, backup);
    ApplyBundle(sync, saved.1, env, installExtensions, updateSettings, ids, settings, metadata);
  }

  /** A JSON export read back by import: the exported extensions are the ones
      installed, in order, and the exported settings become the settings file. */
  lemma ExportThenImport(sync: VSCodeSync, w: World, env: Env, outputPath: string, now: string)
    requires !IsZipPath(outputPath)
    requires outputPath in w.files
    requires w.files[outputPath] == Encode(sync.ExportedBundle(env, w.files, true, now), outputPath, sync.SettingsFile(w.files))
    requires env.cliAvailable && env.writable(sync.settingsPath) && env.writable(sync.BackupPath())
    ensures var exported := sync.ExportedBundle(env, w.files, true, now);
      var r := sync.ImportSpec(w, env, outputPath, true, true, true);
      && r.1.installLog == w.installLog + InstalledExtensions(env)
      && (Truthy(exported.fields["settings"]) ==>
            SettingsDocument(r.1.files, sync.settingsPath) == SettingsDocument(w.files, sync.settingsPath))
  {
    var exported := sync.ExportedBundle(env, w.files, true, now);
    DecodeEncode(exported, outputPath, sync.SettingsFile(w.files));
    assert exported == BundleDoc(exported.fields["metadata"], InstalledExtensions(env),
                                 SettingsDocument(w.files, sync.settingsPath));
    ImportOfWellFormedBundle(sync, w, env, outputPath, true, true, true,
                             InstalledExtensions(env), SettingsDocument(w.files, sync.settingsPath),
                             exported.fields["metadata"]);
  }

  // ---------------------------------------------------------------- recommendations

  const BaseExtensions: seq<string> := [
    "ms-vscode.vscode-typescript-next",
    "esbenp.prettier-vscode",
    "bradlc.vscode-tailwindcss",
    "ms-python.python",
    "ms-vscode.powershell",
    "ms-vscode.vscode-json",
    "redhat.vscode-yaml",
    "ms-vscode.vscode-eslint"]

  /** type_extensions.get(dev_type, []) */
  function TypeExtensions(devType: string): seq<string> {
    if devType == "frontend" then
      ["formulahendry.auto-rename-tag", "christian-kohler.npm-intellisense",
       "ms-vscode.vscode-css-peek", "ritwick.reactjs-code-snippets"]
    else if devType == "backend" then
      ["ms-python.python", "ms-vscode.vscode-docker", "ms-vscode.vscode-restclient", "humao.rest-client"]
    else if devType == "data-science" then
      ["ms-python.python", "ms-toolsai.jupyter", "ms-python.vscode-pylance", "ms-toolsai.vscode-jupyter-cell-tags"]
    else if devType == "mobile" then
      ["dart-code.dart-code", "dart-code.flutter", "ms-vscode.vscode-react-native"]
    else []
  }

  /** get_recommendations: list(set(base + type list)), in no particular order;
      the languages are not consulted. */
  method GetRecommendations(devType: string, languages: seq<string>) returns (r: seq<string>)
    ensures NoDup(r)
    ensures forall x :: x in r <==> x in BaseExtensions || x in TypeExtensions(devType)
  {
    var pool := set x | x in BaseExtensions + TypeExtensions(devType);
    r := [];
    while pool != {}
      invariant NoDup(r)
      invariant forall x :: x in r ==> x !in pool
      invariant forall x :: x in r || x in pool <==> x in BaseExtensions || x in TypeExtensions(devType)
      decreases |pool|
    {
      var x :| x in pool;
      r := r + [x];
      pool := pool - {x};
    }
  }

  /** A type without its own list ("fullstack", "other", ...) gets the base list only. */
  lemma UnlistedTypeGetsBaseOnly(devType: string)
    requires devType !in {"frontend", "backend", "data-science", "mobile"}
    ensures forall x :: x in BaseExtensions || x in TypeExtensions(devType) <==> x in BaseExtensions
  {
  }
}
