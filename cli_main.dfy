/** The second-generation command-line logic (vscode_sync/main.py): IDE
    selection, the import and export commands, and the wizard session up to
    its accept/abort decision. The process-wide IDE choice, the lines of
    standard input and how many of them were read are the fields of class Cli; the files and the
    editor are the Live machine. Every line read is stripped, as the source
    strips every answer it reads. */
module CliMain {
  import opened Text
  import opened Paths
  import opened Json
  import opened Files
  import opened Live
  import opened OsConfig
  import opened PresetTable

  // ---------------------------------------------------------------- select_ide

  datatype Selection = NoIde | Selected(ide: string) | InputEnded

  predicate IsAnswer(line: string) {
    Strip(line) == "1" || Strip(line) == "2"
  }

  /** The prompt loop run when both CLIs are present, reading from line pos
      on: lines other than "1" and "2" are rejected; returns the outcome and
      the position after the last line read. */
  function PromptChoice(lines: seq<string>, pos: nat): (r: (Selection, nat))
    requires pos <= |lines|
    ensures pos <= r.1 <= |lines|
    ensures r.0.Selected? ==> pos < r.1 && (r.0.ide == "code" || r.0.ide == "cursor")
    ensures r.0.InputEnded? ==> r.1 == |lines|
    ensures !r.0.NoIde?
    decreases |lines| - pos
  {
    if pos == |lines| then (InputEnded, pos)
    else if Strip(lines[pos]) == "1" then (Selected("code"), pos + 1)
    else if Strip(lines[pos]) == "2" then (Selected("cursor"), pos + 1)
    else PromptChoice(lines, pos + 1)
  }

  /** select_ide: exit when neither CLI is installed, no prompt when exactly
      one is, otherwise the prompt loop. */
  function SelectIdeSpec(codeInstalled: bool, cursorInstalled: bool, lines: seq<string>, pos: nat): (r: (Selection, nat))
    requires pos <= |lines|
    ensures pos <= r.1 <= |lines|
    ensures r.0.NoIde? <==> !codeInstalled && !cursorInstalled
    ensures r.0.Selected? ==> (r.0.ide == "code" && codeInstalled) || (r.0.ide == "cursor" && cursorInstalled)
    ensures codeInstalled != cursorInstalled ==> r.1 == pos && r.0.Selected?
  {
    if !codeInstalled && !cursorInstalled then (NoIde, pos)
    else if codeInstalled && !cursorInstalled then (Selected("code"), pos)
    else if cursorInstalled && !codeInstalled then (Selected("cursor"), pos)
    else PromptChoice(lines, pos)
  }

  /** The prompt decides on the first line that is an answer, after rejecting
      every line before it. */
  lemma {:induction false} PromptChoiceFirstAnswer(lines: seq<string>, pos: nat, k: nat)
    requires pos <= k < |lines| && IsAnswer(lines[k])
    requires forall i :: pos <= i < k ==> !IsAnswer(lines[i])
    ensures PromptChoice(lines, pos) == (Selected(if Strip(lines[k]) == "1" then "code" else "cursor"), k + 1)
    decreases k - pos
  {
    if pos < k {
      assert !IsAnswer(lines[pos]);
      PromptChoiceFirstAnswer(lines, pos + 1, k);
    }
  }

  /** Without an answer the prompt reads the whole input and selects nothing. */
  lemma {:induction false} PromptChoiceNoAnswer(lines: seq<string>, pos: nat)
    requires pos <= |lines|
    requires forall i :: pos <= i < |lines| ==> !IsAnswer(lines[i])
    ensures PromptChoice(lines, pos) == (InputEnded, |lines|)
    decreases |lines| - pos
  {
    if pos < |lines| {
      assert !IsAnswer(lines[pos]);
      PromptChoiceNoAnswer(lines, pos + 1);
    }
  }

  // ---------------------------------------------------------------- import_

  datatype ImportOutcome = Completed | InputNotFound | ReadFailed | NoSettingsPath | Raised

  /** The process exit status: typer.Exit(1) and an uncaught exception both give 1. */
  function ImportExitCode(o: ImportOutcome): (code: int)
    ensures code == 0 <==> o == Completed
  {
    if o == Completed then 0 else 1
  }

  const BackupName := "settings.backup.json"

  /** The extensions step: skipped for a falsy value; len() raises for a value
      without a length; each item is installed in turn with no timeout, a
      failed call is only reported, and a non-string item makes the call raise.
      Returns whether the step raised. */
  function CliInstallStep(w: World, env: Env, extensions: Json): (bool, World) {
    if !Truthy(extensions) then (false, w)
    else match Iterate(extensions)
      case None => (true, w)
      case Some(items) =>
        var run := RunInstalls(items, env, false);
        (run.crashed, AfterInstalls(w, run.attempted, env, false))
  }

  /** The settings step: no settings path exits; the backup, when requested
      and the file exists, is copied next to it (a failed copy raises, as does
      copying the file onto itself); then the document is written, a failed
      write being only reported. */
  function CliSettingsStep(w: World, env: Env, settingsPath: Option<string>, settings: Json, noBackup: bool)
    : (ImportOutcome, World)
  {
    if settingsPath.None? then (NoSettingsPath, w)
    else
      var sp := settingsPath.value;
      var backup := Sibling(sp, BackupName);
      var copying := !noBackup && sp in w.files;
      if copying && (backup == sp || !env.writable(backup)) then (Raised, w)
      else
        var w1 := if copying then w.(files := w.files[backup := w.files[sp]]) else w;
        (Completed, if env.writable(sp) then w1.(files := w1.files[sp := Text(settings)]) else w1)
  }

  /** import_ as a function of the state before it. */
  function ImportCmdSpec(w: World, env: Env, settingsPath: Option<string>, inputPath: string,
                         noExtensions: bool, noSettings: bool, noBackup: bool): (r: (ImportOutcome, World))
  {
    if inputPath !in w.files then (InputNotFound, w)
    else match DecodeJson(w.files[inputPath])
      case None => (ReadFailed, w)
      case Some(data) =>
        if (!noExtensions || !noSettings) && !data.JObject? then (Raised, w)
        else
          var installed := if noExtensions then (false, w)
                           else CliInstallStep(w, env, GetOr(data.fields, "extensions", JArray([])));
          if installed.0 then (Raised, installed.1)
          else if noSettings then (Completed, installed.1)
          else CliSettingsStep(installed.1, env, settingsPath, GetOr(data.fields, "settings", JObject(map[])), noBackup)
  }

  /** The install loop of import_. */
  method InstallAll(m: Machine, extensions: Json) returns (raised: bool)
    modifies m
    ensures (raised, m.State()) == CliInstallStep(old(m.State()), m.env, extensions)
  {
    if !Truthy(extensions) {
      return false;
    }
    var items := Iterate(extensions);
    if items.None? {
      return true;
    }
    var xs := items.value;
    ghost var attempted: seq<string> := [];
    ghost var failed: seq<string> := [];
    var i := 0;
    while i < |xs|
      invariant 0 <= i <= |xs|
      invariant RunInstalls(xs[..i], m.env, false) == InstallRun(attempted, failed, false)
      invariant m.State() == AfterInstalls(old(m.State()), attempted, m.env, false)
    {
      RunInstallsStep(xs, i, m.env, false);
      if !xs[i].JString? {
        RunInstallsCrashPersists(xs, i + 1, m.env, false);
        return true;
      }
      var id := xs[i].s;
      var ok := m.Install(id, false);
      AfterInstallsStep(old(m.State()), attempted, id, m.env, false);
      if !ok {
        failed := failed + [id];
      }
      attempted := attempted + [id];
      i := i + 1;
    }
    assert xs[..i] == xs;
    raised := false;
  }

  /** import_: the input is always read as JSON. */
  method ImportCmd(m: Machine, settingsPath: Option<string>, inputPath: string,
                   noExtensions: bool, noSettings: bool, noBackup: bool) returns (r: ImportOutcome)
    modifies m
    ensures (r, m.State()) == ImportCmdSpec(old(m.State()), m.env, settingsPath, inputPath, noExtensions, noSettings, noBackup)
  {
    if inputPath !in m.files {
      return InputNotFound;
    }
    var decoded := DecodeJson(m.files[inputPath]);
    if decoded.None? {
      return ReadFailed;
    }
    var data := decoded.value;
    if !noExtensions {
      if !data.JObject? {
        return Raised;
      }
      var raised := InstallAll(m, GetOr(data.fields, "extensions", JArray([])));
      if raised {
        return Raised;
      }
    }
    if noSettings {
      return Completed;
    }
    if !data.JObject? {
      return Raised;
    }
    var settings := GetOr(data.fields, "settings", JObject(map[]));
    if settingsPath.None? {
      return NoSettingsPath;
    }
    var sp := settingsPath.value;
    if !noBackup && sp in m.files {
      var backup := Sibling(sp, BackupName);
      if backup == sp {
        return Raised;
      }
      var copied := m.Write(backup, m.files[sp]);
      if !copied {
        return Raised;
      }
    }
    var _ := m.Write(sp, Text(settings));
    r := Completed;
  }

  /** A missing input exits 1 and an unreadable one (an archive among them:
      the input is never unzipped) exits 1, both before any install or write. */
  lemma ImportInputErrors(w: World, env: Env, settingsPath: Option<string>, inputPath: string,
                          noExtensions: bool, noSettings: bool, noBackup: bool)
    ensures inputPath !in w.files ==>
      ImportCmdSpec(w, env, settingsPath, inputPath, noExtensions, noSettings, noBackup) == (InputNotFound, w)
    ensures inputPath in w.files && !w.files[inputPath].Text? ==>
      ImportCmdSpec(w, env, settingsPath, inputPath, noExtensions, noSettings, noBackup) == (ReadFailed, w)
  {
  }

  lemma CliInstallStepIgnoresOutcomes(w: World, env1: Env, env2: Env, extensions: Json)
    ensures CliInstallStep(w, env1, extensions).0 == CliInstallStep(w, env2, extensions).0
    ensures CliInstallStep(w, env1, extensions).1.files == CliInstallStep(w, env2, extensions).1.files
    ensures CliInstallStep(w, env1, extensions).1.installLog == CliInstallStep(w, env2, extensions).1.installLog
  {
    if Iterate(extensions).Some? {
      RunInstallsIgnoresOutcomes(Iterate(extensions).value, env1, env2, false);
    }
  }

  /** The settings step looks only at the files and at which paths are
      writable, and makes no install call. */
  lemma CliSettingsStepIgnoresInstalled(w1: World, w2: World, env1: Env, env2: Env, settingsPath: Option<string>,
                                        settings: Json, noBackup: bool)
    requires w1.files == w2.files && w1.installLog == w2.installLog && env1.writable == env2.writable
    ensures var s1 := CliSettingsStep(w1, env1, settingsPath, settings, noBackup);
      var s2 := CliSettingsStep(w2, env2, settingsPath, settings, noBackup);
      s1.0 == s2.0 && s1.1.files == s2.1.files && s1.1.installLog == s2.1.installLog == w1.installLog
  {
  }

  /** Install failures are reported and nothing more: the outcome, the files
      and the calls made are the same whatever the calls return. */
  lemma ImportIgnoresInstallOutcomes(w: World, env1: Env, env2: Env, settingsPath: Option<string>,
                                     inputPath: string, noExtensions: bool, noSettings: bool, noBackup: bool)
    requires env1.writable == env2.writable
    ensures var r1 := ImportCmdSpec(w, env1, settingsPath, inputPath, noExtensions, noSettings, noBackup);
      var r2 := ImportCmdSpec(w, env2, settingsPath, inputPath, noExtensions, noSettings, noBackup);
      r1.0 == r2.0 && r1.1.files == r2.1.files && r1.1.installLog == r2.1.installLog
  {
    if inputPath in w.files && DecodeJson(w.files[inputPath]).Some? {
      var data := DecodeJson(w.files[inputPath]).value;
      if data.JObject? && !noExtensions {
        var exts := GetOr(data.fields, "extensions", JArray([]));
        CliInstallStepIgnoresOutcomes(w, env1, env2, exts);
        var i1 := CliInstallStep(w, env1, exts);
        var i2 := CliInstallStep(w, env2, exts);
        if !i1.0 && !noSettings {
          var settings := GetOr(data.fields, "settings", JObject(map[]));
          CliSettingsStepIgnoresInstalled(i1.1, i2.1, env1, env2, settingsPath, settings, noBackup);
        }
      }
    }
  }

  /** No failing import changes a file: the install loop raising, a missing
      settings path and a failed backup copy all leave the files as they were,
      so the backup is never taken before the installs have finished. */
  lemma ImportFailureKeepsFiles(w: World, env: Env, settingsPath: Option<string>, inputPath: string,
                                noExtensions: bool, noSettings: bool, noBackup: bool)
    ensures var r := ImportCmdSpec(w, env, settingsPath, inputPath, noExtensions, noSettings, noBackup);
      r.0 != Completed ==> r.1.files == w.files
  {
    if inputPath in w.files && DecodeJson(w.files[inputPath]).Some? {
      var data := DecodeJson(w.files[inputPath]).value;
      if data.JObject? && !noExtensions {
        assert CliInstallStep(w, env, GetOr(data.fields, "extensions", JArray([]))).1.files == w.files;
      }
    }
  }

  /** --no-extensions skips the install loop: no install call is made. */
  lemma NoExtensionsSkipsInstalls(w: World, env: Env, settingsPath: Option<string>, inputPath: string,
                                  noSettings: bool, noBackup: bool)
    ensures var r := ImportCmdSpec(w, env, settingsPath, inputPath, true, noSettings, noBackup);
      r.1.installLog == w.installLog && r.1.installed == w.installed
  {
  }

  /** Without a settings path the settings step exits 1 after the installs,
      with no file changed. */
  lemma NoSettingsPathExits(w: World, env: Env, inputPath: string, noExtensions: bool, noBackup: bool)
    ensures var r := ImportCmdSpec(w, env, None, inputPath, noExtensions, false, noBackup);
      ImportExitCode(r.0) == 1 && r.1.files == w.files
  {
    ImportFailureKeepsFiles(w, env, None, inputPath, noExtensions, false, noBackup);
  }

  /** The backup is made only when requested and the settings file exists:
      otherwise the backup path keeps what it held (when it is not the
      settings path itself). */
  lemma NoBackupLeavesBackup(w: World, env: Env, sp: string, inputPath: string,
                             noExtensions: bool, noSettings: bool, noBackup: bool)
    requires noBackup || sp !in w.files
    ensures var r := ImportCmdSpec(w, env, Some(sp), inputPath, noExtensions, noSettings, noBackup);
      var b := Sibling(sp, BackupName);
      b != sp ==> (b in r.1.files <==> b in w.files) && (b in w.files ==> r.1.files[b] == w.files[b])
  {
    if inputPath in w.files && DecodeJson(w.files[inputPath]).Some? {
      var data := DecodeJson(w.files[inputPath]).value;
      if data.JObject? && !noExtensions {
        var installed := CliInstallStep(w, env, GetOr(data.fields, "extensions", JArray([])));
        assert installed.1.files == w.files;
      }
    }
  }

  /** Importing a document whose extensions are a list of ids: every id is
      installed in order; the settings file, when the step runs and its backup
      (if any) succeeds, is replaced by the document's settings, {} when it has
      none; the backup holds the file as it was. */
  lemma ImportOfDocument(w: World, env: Env, sp: string, inputPath: string, noBackup: bool,
                         fields: map<string, Json>, ids: seq<string>)
    requires inputPath in w.files && w.files[inputPath] == Text(JObject(fields))
    requires GetOr(fields, "extensions", JArray([])) == JArray(Strings(ids))
    requires !noBackup && sp in w.files ==> Sibling(sp, BackupName) != sp && env.writable(Sibling(sp, BackupName))
    ensures var r := ImportCmdSpec(w, env, Some(sp), inputPath, false, false, noBackup);
      && r.0 == Completed
      && r.1.installLog == w.installLog + ids
      && (env.writable(sp) ==> sp in r.1.files && r.1.files[sp] == Text(GetOr(fields, "settings", JObject(map[]))))
      && (!noBackup && sp in w.files ==> r.1.files[Sibling(sp, BackupName)] == w.files[sp])
  {
    RunInstallsAttemptsAll(ids, env, false);
    if ids == [] {
      assert !Truthy(JArray(Strings(ids)));
    } else {
      assert Truthy(JArray(Strings(ids)));
    }
  }

  /** A listing that exits with 0 and prints stripped, non-empty ids without
      line boundaries, one per line, gives exactly those ids, in order. */
  lemma ListedIds(env: Env, ids: seq<string>)
    requires env.listExit == 0
    requires forall k :: 0 <= k < |ids| ==> ids[k] != [] && IsStripped(ids[k])
    requires forall k, i :: 0 <= k < |ids| && 0 <= i < |ids[k]| ==> !IsLineBreak(ids[k][i])
    requires env.listStdout == Join(ids, '\n') + "\n"
    ensures ListedLines(env) == ids
  {
    var j := Join(ids, '\n');
    if ids == [] {
      assert Strip(env.listStdout) == Strip("\n");
      assert Strip("\n") == Strip("\n"[1..]);
    } else {
      JoinEnds(ids);
      assert IsStripped(j);
      StripDropsFinalNewline(j);
    }
    SplitLinesJoin(ids);
  }

  // ---------------------------------------------------------------- export

  const ExportEntry := "vscode_sync_export.json"
  const CliToolVersion := "0.1.0"

  /** stdout.strip().splitlines() when the listing exits with 0, else []. */
  function ListedLines(env: Env): (lines: seq<string>)
    ensures forall k, i :: 0 <= k < |lines| && 0 <= i < |lines[k]| ==> !IsLineBreak(lines[k][i])
    ensures env.listExit != 0 ==> lines == []
  {
    if env.listExit == 0 then SplitLines(Strip(env.listStdout)) else []
  }

  /** The document export assembles from a settings file that reads as text
      (one that does not makes export raise before this point, see
      ExportCmdSpec): the file's document, or {} when there is no file or its
      text is not JSON. */
  function ExportData(env: Env, os: string, now: string, settingsFile: Option<Content>): (data: Json)
    requires settingsFile.Some? ==> IsUtf8Text(settingsFile.value)
    ensures data.JObject? && data.fields.Keys == {"metadata", "extensions", "settings"}
    ensures data.fields["extensions"] == JArray(Strings(ListedLines(env)))
    ensures settingsFile.Some? && settingsFile.value.Text? ==> data.fields["settings"] == settingsFile.value.doc
    ensures settingsFile.None? || settingsFile.value.Malformed? ==> data.fields["settings"] == JObject(map[])
  {
    var settings := if settingsFile.Some? && settingsFile.value.Text? then settingsFile.value.doc else JObject(map[]);
    JObject(map[
      "metadata" := JObject(map[
        "created_at" := JString(now),
        "system" := JString(Capitalize(os)),
        "vscode_sync_version" := JString(CliToolVersion)]),
      "extensions" := JArray(Strings(ListedLines(env))),
      "settings" := settings])
  }

  /** How export ends: SettingsNotText is the UnicodeDecodeError that reading
      a settings file which is not UTF-8 text raises, which export does not catch. */
  datatype ExportOutcome = Exported(archive: string) | SettingsNotText | JsonNotWritten | ArchiveNotWritten

  /** The JSON write failing is reported and export returns normally; an
      undecodable settings file and the archive write are not guarded, so
      either ends the process with 1. */
  function ExportExitCode(o: ExportOutcome): (code: int)
    ensures code == 1 <==> o.SettingsNotText? || o.ArchiveNotWritten?
    ensures code == 0 <==> o.Exported? || o.JsonNotWritten?
  {
    if o.SettingsNotText? || o.ArchiveNotWritten? then 1 else 0
  }

  /** The directory export writes to: --output-dir when given, else a fresh temporary one. */
  function OutDir(outputDir: string, tempDir: string): string {
    if outputDir != "" then outputDir else tempDir
  }

  /** The settings file export reads, when there is one. */
  function SettingsFile(w: World, settingsPath: Option<string>): Option<Content> {
    if settingsPath.Some? && settingsPath.value in w.files then Some(w.files[settingsPath.value]) else None
  }

  /** The writes of export: the JSON document into dir, then the archive
      holding it; a failed JSON write returns, a failed archive write raises. */
  function ExportWrites(w: World, env: Env, data: Json, dir: string, output: string): (ExportOutcome, World) {
    var jsonPath := JoinPath(dir, ExportEntry);
    if !env.writable(jsonPath) then (JsonNotWritten, w)
    else
      var w1 := w.(files := w.files[jsonPath := Text(data)]);
      var archive := Resolve(dir, output);
      if !env.writable(archive) then (ArchiveNotWritten, w1)
      else (Exported(archive), w1.(files := w1.files[archive := Archive(map[ExportEntry := Text(data)])]))
  }

  /** export as a function of the state before it. */
  function ExportCmdSpec(w: World, env: Env, os: string, settingsPath: Option<string>, now: string,
                         output: string, outputDir: string, tempDir: string): (ExportOutcome, World)
  {
    var settingsFile := SettingsFile(w, settingsPath);
    if settingsFile.Some? && !IsUtf8Text(settingsFile.value) then (SettingsNotText, w)
    else ExportWrites(w, env, ExportData(env, os, now, settingsFile), OutDir(outputDir, tempDir), output)
  }

  /** The two writes of export on the machine. */
  method WriteExport(m: Machine, data: Json, dir: string, output: string) returns (r: ExportOutcome)
    modifies m
    ensures (r, m.State()) == ExportWrites(old(m.State()), m.env, data, dir, output)
  {
    var jsonPath := JoinPath(dir, ExportEntry);
    var written := m.Write(jsonPath, Text(data));
    if !written {
      return JsonNotWritten;
    }
    var archive := Resolve(dir, output);
    var zipped := m.Write(archive, Archive(map[ExportEntry := Text(data)]));
    if !zipped {
      return ArchiveNotWritten;
    }
    r := Exported(archive);
  }

  /** export: the JSON document is written to the output directory, then
      zipped as the single entry "vscode_sync_export.json". */
  method ExportCmd(m: Machine, os: string, settingsPath: Option<string>, now: string,
                   output: string, outputDir: string, tempDir: string) returns (r: ExportOutcome)
    modifies m
    ensures (r, m.State()) == ExportCmdSpec(old(m.State()), m.env, os, settingsPath, now, output, outputDir, tempDir)
  {
    var settingsFile := if settingsPath.Some? && settingsPath.value in m.files
                        then Some(m.files[settingsPath.value]) else None;
    if settingsFile.Some? && !IsUtf8Text(settingsFile.value) {
      return SettingsNotText;
    }
    var data := ExportData(m.env, os, now, settingsFile);
    r := WriteExport(m, data, OutDir(outputDir, tempDir), output);
  }

  /** A settings file that is not UTF-8 text ends export with exit code 1
      before anything is written. */
  lemma ExportAbortsOnUndecodableSettings(w: World, env: Env, os: string, settingsPath: Option<string>, now: string,
                                          output: string, outputDir: string, tempDir: string)
    requires settingsPath.Some? && settingsPath.value in w.files && !IsUtf8Text(w.files[settingsPath.value])
    ensures var e := ExportCmdSpec(w, env, os, settingsPath, now, output, outputDir, tempDir);
      e.1 == w && ExportExitCode(e.0) == 1
  {
  }

  /** What a successful export leaves: the JSON document and the archive
      holding it, both written over the state before it. */
  lemma ExportedState(w: World, env: Env, os: string, settingsPath: Option<string>, now: string,
                      output: string, outputDir: string, tempDir: string)
    requires ExportCmdSpec(w, env, os, settingsPath, now, output, outputDir, tempDir).0.Exported?
    ensures var e := ExportCmdSpec(w, env, os, settingsPath, now, output, outputDir, tempDir);
      var data := ExportData(env, os, now, SettingsFile(w, settingsPath));
      var dir := OutDir(outputDir, tempDir);
      && e.0.archive == Resolve(dir, output)
      && e.1 == w.(files := w.files[JoinPath(dir, ExportEntry) := Text(data)][Resolve(dir, output) := Archive(map[ExportEntry := Text(data)])])
  {
  }

  /** The archive export writes holds one entry, the JSON document, and
      importing the archive itself fails: import never unzips. */
  lemma ExportedArchiveIsNotImportable(w: World, env: Env, os: string, settingsPath: Option<string>, now: string,
                                       output: string, outputDir: string, tempDir: string,
                                       noExtensions: bool, noSettings: bool, noBackup: bool)
    requires Resolve(OutDir(outputDir, tempDir), output) != JoinPath(OutDir(outputDir, tempDir), ExportEntry)
    requires ExportCmdSpec(w, env, os, settingsPath, now, output, outputDir, tempDir).0.Exported?
    ensures var e := ExportCmdSpec(w, env, os, settingsPath, now, output, outputDir, tempDir);
      var archive := e.0.archive;
      && e.1.files[archive].Archive?
      && e.1.files[archive].entries.Keys == {ExportEntry}
      && e.1.files[archive].entries[ExportEntry] == e.1.files[JoinPath(OutDir(outputDir, tempDir), ExportEntry)]
      && ImportCmdSpec(e.1, env, settingsPath, archive, noExtensions, noSettings, noBackup).0 == ReadFailed
  {
    ExportedState(w, env, os, settingsPath, now, output, outputDir, tempDir);
    var e := ExportCmdSpec(w, env, os, settingsPath, now, output, outputDir, tempDir);
    ImportInputErrors(e.1, env, settingsPath, e.0.archive, noExtensions, noSettings, noBackup);
  }

  /** Export followed by import of the JSON document it wrote: the listed
      extensions are installed in order and the settings file ends up holding
      the document it held before export ({} when it was absent or not JSON). */
  lemma ExportThenImport(w: World, env: Env, os: string, sp: string, now: string,
                         output: string, outputDir: string, tempDir: string)
    requires ExportCmdSpec(w, env, os, Some(sp), now, output, outputDir, tempDir).0.Exported?
    requires Resolve(OutDir(outputDir, tempDir), output) != JoinPath(OutDir(outputDir, tempDir), ExportEntry)
    requires env.writable(sp)
    requires var e := ExportCmdSpec(w, env, os, Some(sp), now, output, outputDir, tempDir).1;
      sp in e.files ==> Sibling(sp, BackupName) != sp && env.writable(Sibling(sp, BackupName))
    ensures var e := ExportCmdSpec(w, env, os, Some(sp), now, output, outputDir, tempDir).1;
      var r := ImportCmdSpec(e, env, Some(sp), JoinPath(OutDir(outputDir, tempDir), ExportEntry), false, false, false);
      && r.0 == Completed
      && r.1.installLog == e.installLog + ListedLines(env)
      && sp in r.1.files
      && r.1.files[sp] == Text(if sp in w.files && w.files[sp].Text? then w.files[sp].doc else JObject(map[]))
  {
    var e := ExportCmdSpec(w, env, os, Some(sp), now, output, outputDir, tempDir).1;
    var jsonPath := JoinPath(OutDir(outputDir, tempDir), ExportEntry);
    var data := ExportData(env, os, now, SettingsFile(w, Some(sp)));
    ExportedState(w, env, os, Some(sp), now, output, outputDir, tempDir);
    assert e.files[jsonPath] == Text(data);
    ExportedFields(env, os, now, SettingsFile(w, Some(sp)));
    ImportOfDocument(e, env, sp, jsonPath, false, data.fields, ListedLines(env));
  }

  /** The two keys import reads from the exported document. */
  lemma ExportedFields(env: Env, os: string, now: string, settingsFile: Option<Content>)
    requires settingsFile.Some? ==> IsUtf8Text(settingsFile.value)
    ensures var data := ExportData(env, os, now, settingsFile);
      && GetOr(data.fields, "extensions", JArray([])) == JArray(Strings(ListedLines(env)))
      && GetOr(data.fields, "settings", JObject(map[]))
         == if settingsFile.Some? && settingsFile.value.Text? then settingsFile.value.doc else JObject(map[])
  {
  }

  // ---------------------------------------------------------------- wizard

  const Custom := "Custom"

  /** The menu: the preset names in table order, then "Custom". */
  function MenuNames(): (names: seq<string>)
    ensures |names| == |Presets| + 1 && names[|Presets|] == Custom
  {
    Names(Presets) + [Custom]
  }

  /** choice.isdigit() and 1 <= int(choice) <= n */
  predicate ValidChoice(choice: string, n: nat) {
    IsDigits(choice) && 1 <= DigitsValue(choice) <= n
  }

  /** The numbers the menu offers are exactly the ones it accepts. */
  lemma ValidChoiceOfNumber(k: nat, n: nat)
    ensures ValidChoice(ShowNat(k), n) <==> 1 <= k <= n
  {
  }

  /** A menu answer as typed: valid once stripped. */
  predicate IsValidLine(line: string, n: nat) {
    ValidChoice(Strip(line), n)
  }

  /** The entry a valid answer picks, counting from 0. */
  function ChoiceIndex(line: string, n: nat): (k: nat)
    requires IsValidLine(line, n)
    ensures k < n
  {
    DigitsValue(Strip(line)) - 1
  }

  /** The menu loop from line pos on: the index of the first valid choice and
      the position after it; None when the input runs out first. */
  function MenuSpec(n: nat, lines: seq<string>, pos: nat): (r: Option<(nat, nat)>)
    requires pos <= |lines|
    ensures r.Some? ==> r.value.0 < n && pos < r.value.1 <= |lines|
    decreases |lines| - pos
  {
    if pos == |lines| then None
    else if IsValidLine(lines[pos], n) then Some((ChoiceIndex(lines[pos], n), pos + 1))
    else MenuSpec(n, lines, pos + 1)
  }

  /** The menu takes the first valid line, after rejecting every line before
      it, and numbers the entries from 1. */
  lemma {:induction false} MenuTakesFirstValidChoice(n: nat, lines: seq<string>, pos: nat, k: nat)
    requires pos <= k < |lines| && IsValidLine(lines[k], n)
    requires forall i :: pos <= i < k ==> !IsValidLine(lines[i], n)
    ensures MenuSpec(n, lines, pos) == Some((ChoiceIndex(lines[k], n), k + 1))
    decreases k - pos
  {
    if pos < k {
      assert !IsValidLine(lines[pos], n);
      MenuTakesFirstValidChoice(n, lines, pos + 1, k);
    }
  }

  /** Without a valid line the menu reads the whole input and chooses nothing. */
  lemma {:induction false} MenuWithoutValidChoice(n: nat, lines: seq<string>, pos: nat)
    requires pos <= |lines|
    requires forall i :: pos <= i < |lines| ==> !IsValidLine(lines[i], n)
    ensures MenuSpec(n, lines, pos) == None
    decreases |lines| - pos
  {
    if pos < |lines| {
      assert !IsValidLine(lines[pos], n);
      MenuWithoutValidChoice(n, lines, pos + 1);
    }
  }

  /** extensions.append(id) when id is non-empty and absent. */
  function AddExtension(exts: seq<string>, id: string): (r: seq<string>)
    ensures |exts| <= |r| && r[..|exts|] == exts
    ensures NoDup(exts) ==> NoDup(r)
    ensures forall x :: x in r <==> x in exts || (x == id && id != "")
  {
    if id != "" && id !in exts then exts + [id] else exts
  }

  /** list.remove: drops the first occurrence. */
  function RemoveFirst(s: seq<string>, x: string): (r: seq<string>)
    ensures x in s ==> |r| == |s| - 1
    ensures x !in s ==> r == s
    ensures forall y :: y in r ==> y in s
    ensures forall y :: y in s && y != x ==> y in r
    ensures NoDup(s) ==> NoDup(r) && x !in r
  {
    if s == [] then []
    else if s[0] == x then s[1..]
    else
      var rest := RemoveFirst(s[1..], x);
      assert NoDup(s) ==> NoDup(s[1..]) && s[0] !in s[1..];
      [s[0]] + rest
  }

  /** An action as typed, stripped and lower-cased. */
  function Action(line: string): string {
    Lower(Strip(line))
  }

  /** One "add" or "remove" of an id. */
  function ApplyEdit(exts: seq<string>, action: string, id: string): (r: seq<string>)
    ensures NoDup(exts) ==> NoDup(r)
  {
    if action == "add" then AddExtension(exts, id)
    else if id in exts then RemoveFirst(exts, id)
    else exts
  }

  /** What one pass of a wizard loop leads to: the input ran out, the loop
      was ended by "done", or it goes on with an updated value. */
  datatype Turn<T> = Exhausted | Finished | Continue(next: T)

  /** One pass of the add/remove loop from line pos, and the position after
      it: "add" and "remove" read an id, "done" ends the loop, any other
      action is rejected. */
  function EditStep(exts: seq<string>, lines: seq<string>, pos: nat): (r: (Turn<seq<string>>, nat))
    requires pos <= |lines|
    ensures r.0.Exhausted? ==> r.1 == |lines|
    ensures r.0.Finished? ==> r.1 == pos + 1 <= |lines|
    ensures r.0.Continue? ==> pos < r.1 <= |lines|
    ensures r.0.Continue? && NoDup(exts) ==> NoDup(r.0.next)
    ensures pos < |lines| && Action(lines[pos]) == "done" ==> r == (Finished, pos + 1)
    ensures pos < |lines| && Action(lines[pos]) != "add" && Action(lines[pos]) != "remove" && Action(lines[pos]) != "done"
            ==> r == (Continue(exts), pos + 1)
  {
    if pos == |lines| then (Exhausted, pos)
    else
      var action := Action(lines[pos]);
      if action == "add" || action == "remove" then
        if pos + 1 == |lines| then (Exhausted, pos + 1)
        else (Continue(ApplyEdit(exts, action, Strip(lines[pos + 1]))), pos + 2)
      else if action == "done" then (Finished, pos + 1)
      else (Continue(exts), pos + 1)
  }

  /** The add/remove loop run to its end: the final list and the position
      after "done"; None when the input runs out first. */
  function EditSpec(exts: seq<string>, lines: seq<string>, pos: nat): (r: Option<(seq<string>, nat)>)
    requires pos <= |lines|
    ensures r.Some? ==> pos < r.value.1 <= |lines|
    ensures r.Some? && NoDup(exts) ==> NoDup(r.value.0)
    decreases |lines| - pos
  {
    var step := EditStep(exts, lines, pos);
    match step.0
    case Exhausted => None
    case Finished => Some((exts, step.1))
    case Continue(next) => EditSpec(next, lines, step.1)
  }

  /** "add", an id, "done": the id is appended unless blank or already listed. */
  lemma EditAddThenDone(exts: seq<string>, id: string)
    ensures EditSpec(exts, ["add", id, "done"], 0) == Some((AddExtension(exts, Strip(id)), 3))
  {
    var lines := ["add", id, "done"];
    StripOfStripped("add");
    StripOfStripped("done");
    assert Action(lines[0]) == "add";
    assert Action(lines[2]) == "done";
  }

  /** "remove", an id, "done": the first occurrence of the id is dropped. */
  lemma EditRemoveThenDone(exts: seq<string>, id: string)
    ensures EditSpec(exts, ["remove", id, "done"], 0) == Some((RemoveFirst(exts, Strip(id)), 3))
  {
    var lines := ["remove", id, "done"];
    StripOfStripped("remove");
    StripOfStripped("done");
    assert Action(lines[0]) == "remove";
    assert Action(lines[2]) == "done";
  }

  /** int(): an optional sign, then digits with single underscores between them. */
  predicate IsIntLiteral(s: string) {
    var body := if s != [] && (s[0] == '+' || s[0] == '-') then s[1..] else s;
    IsDigitGroups(body)
  }

  predicate IsDigitGroups(s: string) {
    && s != [] && IsDigit(s[0]) && IsDigit(s[|s| - 1])
    && (forall i :: 0 <= i < |s| ==> IsDigit(s[i]) || s[i] == '_')
    && (forall i :: 0 <= i < |s| - 1 ==> !(s[i] == '_' && s[i + 1] == '_'))
  }

  function DropUnderscores(s: string): (r: string)
    requires forall i :: 0 <= i < |s| ==> IsDigit(s[i]) || s[i] == '_'
    ensures forall i :: 0 <= i < |r| ==> IsDigit(r[i])
  {
    if s == [] then []
    else (if s[0] == '_' then [] else [s[0]]) + DropUnderscores(s[1..])
  }

  function IntLiteralValue(s: string): int
    requires IsIntLiteral(s)
  {
    var negative := s[0] == '-';
    var body := if s[0] == '+' || s[0] == '-' then s[1..] else s;
    var v: int := DigitsValue(DropUnderscores(body));
    if negative then -v else v
  }

  /** float(): an optional sign, then "inf", "infinity" or "nan" in any case,
      or a decimal mantissa with an optional exponent. */
  predicate IsFloatLiteral(s: string) {
    var body := if s != [] && (s[0] == '+' || s[0] == '-') then s[1..] else s;
    Lower(body) in {"inf", "infinity", "nan"} || IsDecimalFloat(body)
  }

  predicate IsDecimalFloat(s: string) {
    var m := Mantissa(s);
    IsDecimalMantissa(m) && (|m| == |s| || IsIntLiteral(s[|m| + 1..]))
  }

  /** Digit groups with at most one '.', and digits on at least one side of it. */
  predicate IsDecimalMantissa(m: string) {
    IsDigitGroups(m)
    || exists d :: 0 <= d < |m| && m[d] == '.'
         && (m[..d] == [] || IsDigitGroups(m[..d]))
         && (m[d + 1..] == [] || IsDigitGroups(m[d + 1..]))
         && !(m[..d] == [] && m[d + 1..] == [])
  }

  /** "true" or "false", in any case. */
  predicate IsBoolWord(raw: string) {
    Lower(raw) == "true" || Lower(raw) == "false"
  }

  /** The value a typed setting gets: true/false in any case, else an integer,
      else a float (kept as its literal), else the text itself. */
  function InferValue(raw: string): (v: Json)
    ensures v.JBool? || v.JInt? || v.JFloat? || v.JString?
    ensures v.JString? ==> v.s == raw
    ensures v.JFloat? ==> v.literal == raw
  {
    if IsBoolWord(raw) then JBool(Lower(raw) == "true")
    else if IsIntLiteral(raw) then JInt(IntLiteralValue(raw))
    else if IsFloatLiteral(raw) then JFloat(raw)
    else JString(raw)
  }

  lemma {:induction false} DropUnderscoresOfDigits(s: string)
    requires forall i :: 0 <= i < |s| ==> IsDigit(s[i])
    ensures DropUnderscores(s) == s
  {
    if s != [] {
      DropUnderscoresOfDigits(s[1..]);
    }
  }

  predicate AllLetters(s: string) {
    forall i :: 0 <= i < |s| ==> IsLetter(s[i])
  }

  predicate NumericChar(c: char) {
    IsDigit(c) || c == '+' || c == '-' || c == '.' || c == '_' || c == 'e' || c == 'E'
  }

  predicate IsLetter(c: char) {
    'a' <= c <= 'z' || 'A' <= c <= 'Z'
  }

  lemma LowerOfNonLetter(s: string, k: nat)
    requires k < |s| && !IsLetter(s[k])
    ensures !AllLetters(Lower(s))
  {
    assert Lower(s)[k] == s[k];
  }

  lemma WordsAreLetters()
    ensures AllLetters("true") && AllLetters("false")
    ensures AllLetters("inf") && AllLetters("infinity") && AllLetters("nan")
  {
  }

  /** A number typed in decimal is inferred as that integer, not as a float. */
  lemma InferNumber(n: nat)
    ensures InferValue(ShowNat(n)) == JInt(n)
  {
    var d := ShowNat(n);
    DropUnderscoresOfDigits(d);
    LowerOfNonLetter(d, 0);
    WordsAreLetters();
    assert IsIntLiteral(d);
  }

  /** The same with a minus sign. */
  lemma InferNegativeNumber(n: nat)
    ensures InferValue("-" + ShowNat(n)) == JInt(-(n as int))
  {
    var d := ShowNat(n);
    var raw := "-" + d;
    DropUnderscoresOfDigits(d);
    LowerOfNonLetter(raw, 0);
    WordsAreLetters();
    assert raw[1..] == d;
    assert IsIntLiteral(raw);
  }

  /** The words true and false in any letter case become booleans. */
  lemma InferBool(raw: string)
    requires Lower(raw) == "true" || Lower(raw) == "false"
    ensures InferValue(raw) == JBool(Lower(raw) == "true")
  {
  }

  /** A character outside digits, '_' and the sign rules out an integer literal. */
  lemma NotIntLiteral(s: string, j: nat)
    requires j < |s| && !NumericChar(s[j])
    ensures !IsIntLiteral(s)
  {
    var body := if s != [] && (s[0] == '+' || s[0] == '-') then s[1..] else s;
    assert j > 0 || body == s;
    var i := |body| - |s| + j;
    assert body[i] == s[j];
  }

  lemma {:induction false} MantissaIsPrefix(s: string)
    ensures Mantissa(s) == s[..|Mantissa(s)|]
    ensures |Mantissa(s)| < |s| ==> s[|Mantissa(s)|] == 'e' || s[|Mantissa(s)|] == 'E'
  {
    if s != [] && s[0] != 'e' && s[0] != 'E' {
      MantissaIsPrefix(s[1..]);
    }
  }

  lemma NoMantissaWith(m: string, j: nat)
    requires j < |m| && !NumericChar(m[j])
    ensures !IsDecimalMantissa(m)
  {
  }

  /** A character that is neither numeric nor a letter rules out a decimal float. */
  lemma NotDecimalFloat(s: string, j: nat)
    requires j < |s| && !NumericChar(s[j])
    ensures !IsDecimalFloat(s)
  {
    var m := Mantissa(s);
    MantissaIsPrefix(s);
    if j < |m| {
      assert m[j] == s[j];
      NoMantissaWith(m, j);
    } else if |m| < |s| {
      assert j != |m|;
      var e := s[|m| + 1..];
      assert e[j - |m| - 1] == s[j];
      NotIntLiteral(e, j - |m| - 1);
    }
  }

  /** Text holding a character that is neither a letter nor part of a number
      stays text. */
  lemma InferText(raw: string, k: nat)
    requires k < |raw| && !NumericChar(raw[k]) && !IsLetter(raw[k])
    ensures InferValue(raw) == JString(raw)
  {
    WordsAreLetters();
    LowerOfNonLetter(raw, k);
    NotIntLiteral(raw, k);
    var body := if raw != [] && (raw[0] == '+' || raw[0] == '-') then raw[1..] else raw;
    var j := |body| - |raw| + k;
    assert 0 <= j < |body| && body[j] == raw[k];
    LowerOfNonLetter(body, j);
    NotDecimalFloat(body, j);
  }

  /** Which kind a typed value gets: a boolean exactly for a bool word, an
      integer exactly for an int() literal that is not one, a float exactly
      for a float() literal that is neither. */
  lemma InferValueKinds(raw: string)
    ensures InferValue(raw).JBool? <==> IsBoolWord(raw)
    ensures InferValue(raw).JInt? <==> !IsBoolWord(raw) && IsIntLiteral(raw)
    ensures InferValue(raw).JFloat? <==> !IsBoolWord(raw) && !IsIntLiteral(raw) && IsFloatLiteral(raw)
  {
  }

  /** A decimal number with a fractional part, such as 1.5, becomes a float
      that keeps the typed literal. */
  lemma InferDecimal(whole: nat, fraction: nat)
    ensures InferValue(ShowNat(whole) + "." + ShowNat(fraction)) == JFloat(ShowNat(whole) + "." + ShowNat(fraction))
  {
    var a := ShowNat(whole);
    var raw := a + "." + ShowNat(fraction);
    assert raw[0] == a[0] && raw[|a|] == '.';
    WordsAreLetters();
    LowerOfNonLetter(raw, |a|);
    DottedNotInt(raw, |a|);
    DottedIsDecimal(a, ShowNat(fraction));
  }

  /** A literal starting with a digit and holding a '.' is no int() literal. */
  lemma DottedNotInt(raw: string, k: nat)
    requires raw != [] && IsDigit(raw[0]) && k < |raw| && raw[k] == '.'
    ensures !IsIntLiteral(raw)
  {
    assert !(IsDigit(raw[k]) || raw[k] == '_');
  }

  /** Digits, a '.', and digits form a decimal float() literal. */
  lemma DottedIsDecimal(a: string, b: string)
    requires IsDigits(a) && IsDigits(b)
    ensures IsDecimalFloat(a + "." + b)
  {
    var raw := a + "." + b;
    assert raw[|a|] == '.';
    forall i | 0 <= i < |raw| ensures raw[i] != 'e' && raw[i] != 'E' {
      if i < |a| { assert raw[i] == a[i]; }
      else if i > |a| { assert raw[i] == b[i - |a| - 1]; }
    }
    MantissaOfNoExponent(raw);
    assert raw[..|a|] == a && raw[|a| + 1..] == b;
    assert IsDigitGroups(a) && IsDigitGroups(b);
    assert IsDecimalMantissa(raw);
  }

  /** Mantissa of a literal without 'e' or 'E' is the whole literal. */
  lemma {:induction false} MantissaOfNoExponent(s: string)
    requires forall i :: 0 <= i < |s| ==> s[i] != 'e' && s[i] != 'E'
    ensures Mantissa(s) == s
  {
    if s != [] {
      MantissaOfNoExponent(s[1..]);
      assert s == [s[0]] + s[1..];
    }
  }

  /** A word of letters other than the bool words and the float words inf,
      infinity and nan (such as off or dark) stays text. */
  lemma InferWord(raw: string)
    requires raw != [] && AllLetters(raw)
    requires !IsBoolWord(raw) && Lower(raw) != "inf" && Lower(raw) != "infinity" && Lower(raw) != "nan"
    ensures InferValue(raw) == JString(raw)
  {
    assert !IsDigit(raw[0]);
    assert !IsIntLiteral(raw);
    var m := Mantissa(raw);
    MantissaIsPrefix(raw);
    if m != [] {
      assert m[0] == raw[0];
      assert !IsDigitGroups(m);
      forall d | 0 <= d < |m| ensures m[d] != '.' {
        assert m[d] == raw[d];
      }
    }
    assert !IsDecimalMantissa(m);
  }

  /** One pass of the settings loop from line pos: a key, then its value;
      "done" as the key ends the loop. */
  function SettingsStep(settings: map<string, Json>, lines: seq<string>, pos: nat): (r: (Turn<map<string, Json>>, nat))
    requires pos <= |lines|
    ensures r.0.Exhausted? ==> r.1 == |lines|
    ensures r.0.Finished? ==> r.1 == pos + 1 <= |lines|
    ensures r.0.Continue? ==> pos < r.1 <= |lines| && settings.Keys <= r.0.next.Keys
  {
    if pos == |lines| then (Exhausted, pos)
    else
      var key := Strip(lines[pos]);
      if key == "done" then (Finished, pos + 1)
      else if pos + 1 == |lines| then (Exhausted, pos + 1)
      else (Continue(settings[key := InferValue(Strip(lines[pos + 1]))]), pos + 2)
  }

  /** The settings loop run to its end: the final settings and the position
      after "done"; None when the input runs out first. */
  function SettingsEditSpec(settings: map<string, Json>, lines: seq<string>, pos: nat): (r: Option<(map<string, Json>, nat)>)
    requires pos <= |lines|
    ensures r.Some? ==> pos < r.value.1 <= |lines|
    ensures r.Some? ==> settings.Keys <= r.value.0.Keys
    decreases |lines| - pos
  {
    var step := SettingsStep(settings, lines, pos);
    match step.0
    case Exhausted => None
    case Finished => Some((settings, step.1))
    case Continue(next) => SettingsEditSpec(next, lines, step.1)
  }

  /** A key typed again overwrites the value it had. */
  lemma SettingsEditOverwrites(settings: map<string, Json>, key: string, value: string)
    requires Strip(key) != "done"
    ensures var r := SettingsEditSpec(settings, [key, value, "done"], 0);
      && r.Some? && r.value.1 == 3
      && r.value.0 == settings[Strip(key) := InferValue(Strip(value))]
  {
    var lines := [key, value, "done"];
    var st := SettingsStep(settings, lines, 0);
    assert st.0.Continue? && st.1 == 2;
    StripOfStripped("done");
    var fin := SettingsStep(st.0.next, lines, 2);
    assert fin.0.Finished? && fin.1 == 3;
  }

  /** A yes/no question: only "y" (any case) is yes. */
  predicate SaysYes(line: string) {
    Lower(Strip(line)) == "y"
  }

  /** The final confirmation: an empty answer, "y" or "yes" (any case). */
  predicate Accepts(line: string) {
    AcceptWord(Lower(Strip(line)))
  }

  predicate AcceptWord(a: string) {
    a == "" || a == "y" || a == "yes"
  }

  /** "Would you like to add/remove extensions?", then the loop if yes. */
  function ExtensionPhase(exts: seq<string>, lines: seq<string>, pos: nat): (r: Option<(seq<string>, nat)>)
    requires pos <= |lines|
    ensures r.Some? ==> pos < r.value.1 <= |lines|
    ensures r.Some? && NoDup(exts) ==> NoDup(r.value.0)
  {
    if pos == |lines| then None
    else if SaysYes(lines[pos]) then EditSpec(exts, lines, pos + 1)
    else Some((exts, pos + 1))
  }

  /** "Would you like to add/edit settings?", then the loop if yes. */
  function SettingsPhase(settings: map<string, Json>, lines: seq<string>, pos: nat): (r: Option<(map<string, Json>, nat)>)
    requires pos <= |lines|
    ensures r.Some? ==> pos < r.value.1 <= |lines|
    ensures r.Some? ==> settings.Keys <= r.value.0.Keys
  {
    if pos == |lines| then None
    else if SaysYes(lines[pos]) then SettingsEditSpec(settings, lines, pos + 1)
    else Some((settings, pos + 1))
  }

  /** Where the session starts for a menu entry: empty for "Custom", else a
      copy of the preset. */
  function StartingPoint(k: nat): (seq<string>, map<string, Json>)
    requires k < |MenuNames()|
  {
    if MenuNames()[k] == Custom then ([], map[])
    else
      assert k != |Presets|;
      (Presets[k].extensions, Presets[k].settings)
  }

  /** "Custom" starts from an empty session; a preset starts from copies of
      the extensions and settings PRESETS holds under its name. */
  lemma StartingPointOfMenu(k: nat)
    requires k < |MenuNames()|
    ensures MenuNames()[k] == Custom ==> StartingPoint(k) == ([], map[])
    ensures MenuNames()[k] != Custom ==>
      var p := Lookup(Presets, MenuNames()[k]);
      p.Some? && StartingPoint(k) == (p.value.extensions, p.value.settings)
  {
    if MenuNames()[k] != Custom {
      PresetsDuplicateFree();
      assert k < |Presets|;
      assert MenuNames()[k] == Names(Presets)[k];
      LookupFindsEntry(Presets, k);
    }
  }

  datatype WizardOutcome = Confirmed(extensions: seq<string>, settings: map<string, Json>) | Aborted | InputExhausted

  /** "Apply this configuration?": the decision, and the position after it. */
  function Decide(exts: seq<string>, settings: map<string, Json>, lines: seq<string>, pos: nat): (r: (WizardOutcome, nat))
    requires pos <= |lines|
    ensures pos <= r.1 <= |lines|
    ensures r.0.InputExhausted? <==> pos == |lines|
    ensures r.0.Confirmed? ==> r.0 == Confirmed(exts, settings)
  {
    if pos == |lines| then (InputExhausted, pos)
    else (if Accepts(lines[pos]) then Confirmed(exts, settings) else Aborted, pos + 1)
  }

  /** The session once the extensions are settled. */
  function AfterExtensions(exts: seq<string>, settings: map<string, Json>, lines: seq<string>, pos: nat): (r: (WizardOutcome, nat))
    requires pos <= |lines|
    ensures pos <= r.1 <= |lines|
  {
    match SettingsPhase(settings, lines, pos)
    case None => (InputExhausted, |lines|)
    case Some(st) => Decide(exts, st.0, lines, st.1)
  }

  /** The session once a menu entry is chosen. */
  function AfterMenu(exts: seq<string>, settings: map<string, Json>, lines: seq<string>, pos: nat): (r: (WizardOutcome, nat))
    requires pos <= |lines|
    ensures pos <= r.1 <= |lines|
  {
    match ExtensionPhase(exts, lines, pos)
    case None => (InputExhausted, |lines|)
    case Some(ext) => AfterExtensions(ext.0, settings, lines, ext.1)
  }

  /** The wizard session up to its decision, and the position after it. */
  function WizardSpec(lines: seq<string>, pos: nat): (r: (WizardOutcome, nat))
    requires pos <= |lines|
    ensures pos <= r.1 <= |lines|
  {
    match MenuSpec(|MenuNames()|, lines, pos)
    case None => (InputExhausted, |lines|)
    case Some(menu) =>
      var start := StartingPoint(menu.0);
      AfterMenu(start.0, start.1, lines, menu.1)
  }

  /** Once a menu entry is chosen, a confirmed session lists no extension
      twice if the starting list did not, and drops no setting. */
  lemma AfterMenuKeeps(exts: seq<string>, settings: map<string, Json>, lines: seq<string>, pos: nat)
    requires pos <= |lines| && NoDup(exts)
    ensures var r := AfterMenu(exts, settings, lines, pos).0;
      r.Confirmed? ==> NoDup(r.extensions) && settings.Keys <= r.settings.Keys
  {
  }

  /** A confirmed session never lists an extension twice, and keeps every
      setting of the preset it started from. */
  lemma WizardConfirmedIsDuplicateFree(lines: seq<string>, pos: nat)
    requires pos <= |lines|
    ensures var r := WizardSpec(lines, pos).0;
      r.Confirmed? ==>
        && NoDup(r.extensions)
        && MenuSpec(|MenuNames()|, lines, pos).Some?
        && StartingPoint(MenuSpec(|MenuNames()|, lines, pos).value.0).1.Keys <= r.settings.Keys
  {
    var menu := MenuSpec(|MenuNames()|, lines, pos);
    if menu.Some? {
      PresetsDuplicateFree();
      var start := StartingPoint(menu.value.0);
      assert NoDup(start.0);
      AfterMenuKeeps(start.0, start.1, lines, menu.value.1);
    }
  }

  // ---------------------------------------------------------------- wizard: apply

  /** The document a confirmed session writes to its temporary file. */
  function WizardDocument(exts: seq<string>, settings: map<string, Json>): Json {
    JObject(map["extensions" := JArray(Strings(exts)), "settings" := JObject(settings)])
  }

  /** The apply step of a confirmed session, importing from importPath: the
      session's document goes to the temporary file (a failed write raises),
      import_ runs with every step enabled, and the temporary file is unlinked
      once import_ returns normally; an import that exits leaves it behind. */
  function ApplyFrom(w: World, env: Env, settingsPath: Option<string>, exts: seq<string>,
                     settings: map<string, Json>, tmpPath: string, importPath: string): (ImportOutcome, World)
  {
    if !env.writable(tmpPath) then (Raised, w)
    else
      var w1 := w.(files := w.files[tmpPath := Text(WizardDocument(exts, settings))]);
      var r := ImportCmdSpec(w1, env, settingsPath, importPath, false, false, false);
      if r.0 != Completed then r
      else (Completed, r.1.(files := r.1.files - {tmpPath}))
  }

  /** The apply step as written: it imports sourceFile, the module's own
      source (__file__), instead of the temporary file it has just written. */
  function ApplyAsWritten(w: World, env: Env, settingsPath: Option<string>, exts: seq<string>,
                          settings: map<string, Json>, tmpPath: string, sourceFile: string): (ImportOutcome, World)
  {
    ApplyFrom(w, env, settingsPath, exts, settings, tmpPath, sourceFile)
  }

  /** The apply step as intended: it imports the temporary file. */
  function ApplyIntended(w: World, env: Env, settingsPath: Option<string>, exts: seq<string>,
                         settings: map<string, Json>, tmpPath: string): (ImportOutcome, World)
  {
    ApplyFrom(w, env, settingsPath, exts, settings, tmpPath, tmpPath)
  }

  /** As written, applying a confirmed session reads a Python source file as
      JSON: the import exits 1 before installing anything or touching the
      settings, and the temporary file is left on disk. */
  lemma WizardApplyReadsOwnSource(w: World, env: Env, settingsPath: Option<string>, exts: seq<string>,
                                  settings: map<string, Json>, tmpPath: string, sourceFile: string)
    requires sourceFile in w.files && !w.files[sourceFile].Text? && sourceFile != tmpPath
    requires env.writable(tmpPath)
    ensures var r := ApplyAsWritten(w, env, settingsPath, exts, settings, tmpPath, sourceFile);
      && r.0 == ReadFailed
      && r.1.installLog == w.installLog
      && r.1.files == w.files[tmpPath := Text(WizardDocument(exts, settings))]
  {
    var w1 := w.(files := w.files[tmpPath := Text(WizardDocument(exts, settings))]);
    assert w1.files[sourceFile] == w.files[sourceFile];
  }

  /** As intended, applying a confirmed session installs its extensions in
      order, replaces the settings file by its settings after backing the old
      file up, exits 0, and removes the temporary file. */
  lemma ApplyIntendedImportsSession(w: World, env: Env, sp: string, exts: seq<string>,
                                    settings: map<string, Json>, tmpPath: string)
    requires env.writable(tmpPath) && sp != tmpPath
    requires sp in w.files ==>
      Sibling(sp, BackupName) != sp && Sibling(sp, BackupName) != tmpPath && env.writable(Sibling(sp, BackupName))
    ensures var r := ApplyIntended(w, env, Some(sp), exts, settings, tmpPath);
      && r.0 == Completed
      && r.1.installLog == w.installLog + exts
      && (env.writable(sp) ==> sp in r.1.files && r.1.files[sp] == Text(JObject(settings)))
      && (sp in w.files ==> r.1.files[Sibling(sp, BackupName)] == w.files[sp])
      && tmpPath !in r.1.files
  {
    var doc := WizardDocument(exts, settings);
    var w1 := w.(files := w.files[tmpPath := Text(doc)]);
    assert "extensions" != "settings";
    assert GetOr(doc.fields, "extensions", JArray([])) == JArray(Strings(exts));
    assert GetOr(doc.fields, "settings", JObject(map[])) == JObject(settings);
    ImportOfDocument(w1, env, sp, tmpPath, false, doc.fields, exts);
  }

  /** The corrected apply step of wizard on the live machine. */
  method ApplyConfirmed(m: Machine, settingsPath: Option<string>, exts: seq<string>,
                        settings: map<string, Json>, tmpPath: string) returns (r: ImportOutcome)
    modifies m
    ensures (r, m.State()) == ApplyIntended(old(m.State()), m.env, settingsPath, exts, settings, tmpPath)
  {
    var written := m.Write(tmpPath, Text(WizardDocument(exts, settings)));
    if !written {
      return Raised;
    }
    r := ImportCmd(m, settingsPath, tmpPath, false, false, false);
    if r != Completed {
      return r;
    }
    var _ := m.Remove(tmpPath);
  }

  class Cli {
    var ideChoice: Option<string>
    /** Everything standard input delivers, one entry per line. */
    const lines: seq<string>
    /** How many of those lines have been read. */
    var pos: nat

    ghost predicate Valid()
      reads this
    {
      pos <= |lines|
    }

    constructor (lines: seq<string>)
      ensures Valid() && ideChoice == None && this.lines == lines && pos == 0
    {
      ideChoice := None;
      this.lines := lines;
      pos := 0;
    }

    /** input().strip(); None once the input has run out. */
    method ReadLine() returns (line: Option<string>)
      requires Valid()
      modifies this
      ensures Valid() && ideChoice == old(ideChoice)
      ensures old(pos) == |lines| ==> line.None? && pos == old(pos)
      ensures old(pos) < |lines| ==> line == Some(Strip(lines[old(pos)])) && pos == old(pos) + 1
    {
      if pos == |lines| {
        return None;
      }
      line := Some(Strip(lines[pos]));
      pos := pos + 1;
    }

    /** select_ide: sets the process-wide choice. */
    method SelectIde(codeInstalled: bool, cursorInstalled: bool) returns (r: Selection)
      requires Valid()
      modifies this
      ensures Valid()
      ensures var spec := SelectIdeSpec(codeInstalled, cursorInstalled, lines, old(pos));
        r == spec.0 && pos == spec.1
        && ideChoice == (if r.Selected? then Some(r.ide) else old(ideChoice))
    {
      if !codeInstalled && !cursorInstalled {
        return NoIde;
      }
      if codeInstalled && !cursorInstalled {
        ideChoice := Some("code");
        return Selected("code");
      }
      if cursorInstalled && !codeInstalled {
        ideChoice := Some("cursor");
        return Selected("cursor");
      }
      while true
        invariant Valid() && ideChoice == old(ideChoice)
        invariant PromptChoice(lines, old(pos)) == PromptChoice(lines, pos)
        decreases |lines| - pos
      {
        var choice := ReadLine();
        if choice.None? {
          return InputEnded;
        }
        if choice.value == "1" {
          ideChoice := Some("code");
          return Selected("code");
        }
        if choice.value == "2" {
          ideChoice := Some("cursor");
          return Selected("cursor");
        }
      }
    }

    /** The menu loop of wizard. */
    method ChooseMenu(n: nat) returns (k: Option<nat>)
      requires Valid()
      modifies this
      ensures Valid() && ideChoice == old(ideChoice)
      ensures var s := MenuSpec(n, lines, old(pos));
        && (s.None? ==> k.None? && pos == |lines|)
        && (s.Some? ==> k == Some(s.value.0) && pos == s.value.1)
    {
      while true
        invariant Valid() && ideChoice == old(ideChoice)
        invariant MenuSpec(n, lines, old(pos)) == MenuSpec(n, lines, pos)
        decreases |lines| - pos
      {
        ghost var before := pos;
        var choice := ReadLine();
        if choice.None? {
          return None;
        }
        if ValidChoice(choice.value, n) {
          assert IsValidLine(lines[before], n);
          return Some(DigitsValue(choice.value) - 1);
        }
        assert !IsValidLine(lines[before], n);
      }
    }

    /** One pass of the add/remove loop of wizard. */
    method EditOnce(extensions: seq<string>) returns (turn: Turn<seq<string>>)
      requires Valid()
      modifies this
      ensures Valid() && ideChoice == old(ideChoice)
      ensures var s := EditStep(extensions, lines, old(pos)); turn == s.0 && pos == s.1
    {
      ghost var before := pos;
      var line := ReadLine();
      if line.None? {
        return Exhausted;
      }
      var action := Lower(line.value);
      assert action == Action(lines[before]);
      if action == "add" {
        var id := ReadLine();
        if id.None? {
          return Exhausted;
        }
        var next := extensions;
        if id.value != "" && id.value !in extensions {
          next := extensions + [id.value];
        }
        assert next == ApplyEdit(extensions, action, Strip(lines[before + 1]));
        return Continue(next);
      } else if action == "remove" {
        var id := ReadLine();
        if id.None? {
          return Exhausted;
        }
        var next := extensions;
        if id.value in extensions {
          next := RemoveFirst(extensions, id.value);
        }
        assert next == ApplyEdit(extensions, action, Strip(lines[before + 1]));
        return Continue(next);
      } else if action == "done" {
        return Finished;
      }
      return Continue(extensions);
    }

    /** The add/remove loop of wizard, over a local list. */
    method EditExtensions(exts: seq<string>) returns (r: Option<seq<string>>)
      requires Valid()
      modifies this
      ensures Valid() && ideChoice == old(ideChoice)
      ensures var s := EditSpec(exts, lines, old(pos));
        && (s.None? ==> r.None? && pos == |lines|)
        && (s.Some? ==> r == Some(s.value.0) && pos == s.value.1)
    {
      var extensions := exts;
      while true
        invariant Valid() && ideChoice == old(ideChoice)
        invariant EditSpec(exts, lines, old(pos)) == EditSpec(extensions, lines, pos)
        decreases |lines| - pos
      {
        var turn := EditOnce(extensions);
        match turn
        case Exhausted =>
          return None;
        case Finished =>
          return Some(extensions);
        case Continue(next) =>
          extensions := next;
      }
    }

    /** One pass of the settings loop of wizard. */
    method SettingsOnce(settings: map<string, Json>) returns (turn: Turn<map<string, Json>>)
      requires Valid()
      modifies this
      ensures Valid() && ideChoice == old(ideChoice)
      ensures var s := SettingsStep(settings, lines, old(pos)); turn == s.0 && pos == s.1
    {
      var key := ReadLine();
      if key.None? {
        return Exhausted;
      }
      if key.value == "done" {
        return Finished;
      }
      var value := ReadLine();
      if value.None? {
        return Exhausted;
      }
      return Continue(settings[key.value := InferValue(value.value)]);
    }

    /** The key/value loop of wizard, over a local dict. */
    method EditSettings(initial: map<string, Json>) returns (r: Option<map<string, Json>>)
      requires Valid()
      modifies this
      ensures Valid() && ideChoice == old(ideChoice)
      ensures var s := SettingsEditSpec(initial, lines, old(pos));
        && (s.None? ==> r.None? && pos == |lines|)
        && (s.Some? ==> r == Some(s.value.0) && pos == s.value.1)
    {
      var settings := initial;
      while true
        invariant Valid() && ideChoice == old(ideChoice)
        invariant SettingsEditSpec(initial, lines, old(pos)) == SettingsEditSpec(settings, lines, pos)
        decreases |lines| - pos
      {
        var turn := SettingsOnce(settings);
        match turn
        case Exhausted =>
          return None;
        case Finished =>
          return Some(settings);
        case Continue(next) =>
          settings := next;
      }
    }

    /** "Would you like to add/remove extensions?", then the loop if yes. */
    method AskExtensions(exts: seq<string>) returns (r: Option<seq<string>>)
      requires Valid()
      modifies this
      ensures Valid() && ideChoice == old(ideChoice)
      ensures var s := ExtensionPhase(exts, lines, old(pos));
        && (s.None? ==> r.None? && pos == |lines|)
        && (s.Some? ==> r == Some(s.value.0) && pos == s.value.1)
    {
      ghost var before := pos;
      var answer := ReadLine();
      if answer.None? {
        return None;
      }
      var a := Lower(answer.value);
      assert a == Lower(Strip(lines[before]));
      if a == "y" {
        r := EditExtensions(exts);
      } else {
        r := Some(exts);
      }
    }

    /** "Would you like to add/edit settings?", then the loop if yes. */
    method AskSettings(settings: map<string, Json>) returns (r: Option<map<string, Json>>)
      requires Valid()
      modifies this
      ensures Valid() && ideChoice == old(ideChoice)
      ensures var s := SettingsPhase(settings, lines, old(pos));
        && (s.None? ==> r.None? && pos == |lines|)
        && (s.Some? ==> r == Some(s.value.0) && pos == s.value.1)
    {
      ghost var before := pos;
      var answer := ReadLine();
      if answer.None? {
        return None;
      }
      var a := Lower(answer.value);
      assert a == Lower(Strip(lines[before]));
      if a == "y" {
        r := EditSettings(settings);
      } else {
        r := Some(settings);
      }
    }

    /** "Apply this configuration?" */
    method Confirm(exts: seq<string>, settings: map<string, Json>) returns (r: WizardOutcome)
      requires Valid()
      modifies this
      ensures Valid() && ideChoice == old(ideChoice)
      ensures var d := Decide(exts, settings, lines, old(pos)); r == d.0 && pos == d.1
    {
      ghost var before := pos;
      var answer := ReadLine();
      if answer.None? {
        return InputExhausted;
      }
      var a := Lower(answer.value);
      assert a == Lower(Strip(lines[before]));
      r := if AcceptWord(a) then Confirmed(exts, settings) else Aborted;
    }

    /** wizard after the menu: the two editing phases and the decision. */
    method Session(exts: seq<string>, settings: map<string, Json>) returns (r: WizardOutcome)
      requires Valid()
      modifies this
      ensures Valid() && ideChoice == old(ideChoice)
      ensures var a := AfterMenu(exts, settings, lines, old(pos)); r == a.0 && pos == a.1
    {
      var edited := AskExtensions(exts);
      if edited.None? {
        return InputExhausted;
      }
      var changed := AskSettings(settings);
      if changed.None? {
        return InputExhausted;
      }
      r := Confirm(edited.value, changed.value);
    }

    /** wizard, up to the accept/abort decision. */
    method Wizard() returns (r: WizardOutcome)
      requires Valid()
      modifies this
      ensures Valid() && ideChoice == old(ideChoice)
      ensures var w := WizardSpec(lines, old(pos)); r == w.0 && pos == w.1
    {
      var k := ChooseMenu(|MenuNames()|);
      if k.None? {
        return InputExhausted;
      }
      var start := StartingPoint(k.value);
      r := Session(start.0, start.1);
    }
  }
}
