# VSCode Sync Tool — a Dafny model

The VSCode Sync Tool copies an editor set-up (the installed extensions and the
user `settings.json`) from one machine to another. The repository holds two
generations of the tool, and this project models the core of both.

- **First generation** (`src/`):
  - `VSCodeSync` (`src/main.py`, with `src/vscode_sync_cli.py` a byte-identical
    copy) exports the installed extensions and the settings into a bundle
    `{metadata, extensions, settings}`, written as JSON or, for a `.zip` suffix,
    as an archive.
  - It imports such a bundle with an optional backup, an install loop and a
    wholesale replacement of the settings file.
  - `get_recommendations` suggests extensions for a kind of development.
  - `SyncConfig` / `ConfigManager` (`src/config.py`) keep the tool's own settings
    record and the file layout of presets and backups.
  - `PresetManager` (`src/presets.py`) serves five built-in presets and the
    user's own preset files.
- **Second generation** (`vscode_sync/`):
  - `vscode_sync/main.py` is a command line with IDE selection (VSCode or
    Cursor), `export`, `import` and an interactive `wizard`.
  - `vscode_sync/config.py` classifies the platform and locates the settings
    file.
  - `vscode_sync/presets.py` is the wizard's preset table.
  - `cli/vscode_sync/config.py` and `cli/vscode_sync/presets.py` are identical
    copies, so one model covers both.

Modules, one per component:

| module | file | models |
|---|---|---|
| `Text` | text.dfy | the string operations with Python's semantics: `strip`, `split`/`join`, `splitlines`, ASCII `lower`/`capitalize`/`isdigit`, `str(n)`, string order, `sorted(set(..))` |
| `Paths` | paths.dfy | the parts of `pathlib` used: `/`, `name`, `parent`, `suffix`, `stem`, `with_suffix`, glob-pattern matching |
| `Json` | json.dfy | decoded JSON values, Python truthiness, `dict.get`, iteration |
| `Files` | files.dfy | file contents (JSON text, text that is not JSON, a ZIP archive, or bytes that are not UTF-8) and the two decoders |
| `Live` | live.dfy | the live system as class `Machine`: files, the log of install calls and the installed set. Its methods `Install`, `Write` and `Remove` are proved against the value `World`. The editor's command line answers through an `Env` record. |
| `SyncEngine` | sync_engine.dfy | class `VSCodeSync` and `get_recommendations` |
| `OsConfig` | os_config.dfy | `get_os`, `get_vscode_settings_path` |
| `PresetTable` | preset_table.dfy | `PRESETS` |
| `CliMain` | cli_main.dfy | `select_ide`, `import_`, `export`, `wizard`. Class `Cli` holds the process-wide IDE choice and a cursor over the lines of standard input. |
| `SyncConfigModel` | sync_config.dfy | `SyncConfig`, `ConfigManager`, timestamps, glob listings, backup cleanup |
| `PresetCatalog` | preset_catalog.dfy | `PresetManager` and its built-in table, `isoformat` |

Operations that change state are methods, proved against functions of the
state before them:

- `Machine` methods against `World`;
- `Cli` methods against functions of `(lines, position)`;
- `Disk` methods against `map`s of modification times.

The properties are then proved about those functions.

## Model

| member | source | states |
|---|---|---|
| Text.Strip | src/main.py:70 | the result has no surrounding whitespace and is no longer than the input |
| Text.StripOfStripped | vscode_sync/main.py:44 | stripping text that has no surrounding whitespace changes nothing |
| Text.StripKeepsChars | src/main.py:70 | stripping adds no character |
| Text.Split | src/main.py:70 | `split('\n')` yields at least one part and no part holds the separator |
| Text.SplitJoin | src/main.py:70 | splitting parts joined by a separator they do not contain gives the parts back |
| Text.SplitLines | vscode_sync/main.py:138 | `splitlines()` gives no lines exactly for empty text, and no line holds a line boundary |
| Text.JoinEnds | src/main.py:67-70 | non-empty lines joined by newlines start with the first line's first character and end with the last line's last character |
| Text.StripDropsFinalNewline | src/main.py:70 | stripping a stripped, non-empty text followed by a newline gives the text |
| Text.LineLengthOfLine | vscode_sync/main.py:138 | a text that starts with a boundary-free line followed by a boundary or the end has that line as its first line |
| Text.SplitLinesCons | vscode_sync/main.py:138 | a non-empty, boundary-free line followed by a newline is the first line, and the text after the newline gives the remaining lines |
| Text.SplitLinesOfLine | vscode_sync/main.py:138 | a non-empty, boundary-free text is exactly one line |
| Text.SplitLinesJoin | vscode_sync/main.py:138 | `splitlines()` of non-empty, boundary-free lines joined by newlines gives the lines back, in order |
| Text.ShowNat | vscode_sync/main.py:245-246 | the menu numbers are decimal digits without a leading zero that denote the number |
| Text.Capitalize | vscode_sync/main.py:158 | `capitalize()` keeps the length |
| Text.StrLessIrreflexive | src/presets.py:200 | Python's string order is irreflexive |
| Text.StrLessTransitive | src/presets.py:200 | Python's string order is transitive |
| Text.StrLessTotal | src/presets.py:200 | Python's string order is total on distinct strings |
| Text.InsertSorted | src/presets.py:200 | inserting into a strictly sorted list keeps it strictly sorted and adds exactly that element |
| Text.SortedUnique | src/presets.py:200 | `sorted(set(xs))` is strictly sorted and holds exactly the elements of xs |
| Text.SortedHasNoDup | src/presets.py:200 | a strictly sorted list has no duplicates |
| Paths.JoinPath | src/config.py:82 | `dir / rel` ends with rel |
| Paths.Resolve | vscode_sync/main.py:171 | `Path(dir, p)` ends with p |
| Paths.Name | src/config.py:92 | a path's name holds no '/' |
| Paths.Suffix | src/main.py:114 | a suffix is empty or a '.' followed by at least one character and no other '.' |
| Paths.PathParts | src/config.py:92 | a path is its directory part, its stem and its suffix, in that order |
| Paths.WithDoubleSuffixIsNewPath | src/main.py:170 | `with_suffix('.backup.json')` never gives back the path it started from |
| Paths.JoinedName | src/config.py:82 | a name joined to a directory is the name of the result, under that directory |
| Paths.JoinedStem | src/config.py:82 | the stem and suffix of `dir/stem.ext` are stem and `.ext` |
| Json.Strings | src/main.py:108 | a list of ids as a JSON array holds each id, in order |
| Json.Iterate | src/main.py:228 | iterating a list visits its items; only lists and strings can be iterated |
| Json.FloatIsZero | src/main.py:177 | (no ensures) a float literal is taken as zero when its mantissa has digits and all are '0'; `Truthy` uses it |
| Json.Truthy | src/main.py:165 | (no ensures) Python's `bool()`: null, false, 0, a zero float, "" and empty lists and objects are falsy; `SyncEngine.ImportFailsBeforeAnyChange`, `SyncEngine.ApplyBundle` and `CliMain.ImportOfDocument` state the branches it decides |
| Json.GetOr | vscode_sync/main.py:196 | (no ensures) `dict.get(key, default)`: the value under the key, else the default; `CliMain.ImportOfDocument` states the `{}` default for settings |
| Files.DecodeJson | src/main.py:190-200 | `json.load` succeeds exactly on JSON text |
| Files.DecodeZipEntry | src/main.py:202-210 | reading an entry as JSON succeeds exactly on an archive whose entry holds JSON text |
| Files.IsUtf8Text | vscode_sync/main.py:146-147 | reading a file as UTF-8 text succeeds on JSON text and other text and raises on an archive or other bytes (no ensures; `CliMain.ExportAbortsOnUndecodableSettings` states what export then does) |
| Live.Machine.constructor | src/main.py:27-31 | the machine starts with the given files and installed set and an empty install log |
| Live.Machine.Install | src/main.py:231-238 | one install call is logged, and the extension is installed exactly when the call does not fail |
| Live.Machine.Write | src/main.py:255-256 | a write succeeds exactly when the path is writable, and then replaces only that path |
| Live.Machine.Remove | src/config.py:104 | an unlink succeeds exactly when the path is writable, and then removes only that path |
| Live.RunInstalls | src/main.py:227-238 | the loop calls each leading string item in order, records as failed exactly the failing calls, and stops at the first non-string item |
| Live.RunInstallsAttemptsAll | src/main.py:228 | on a list of strings every item is attempted, in order, and the loop does not stop early |
| Live.RunInstallsCrashPersists | src/main.py:228 | a loop that stopped on a prefix stops at the same place on the whole list |
| Live.RunInstallsIgnoresOutcomes | vscode_sync/main.py:200-212 | which calls are made does not depend on how the calls turn out |
| SyncEngine.KeepNonBlank | src/main.py:70 | at most one id per line, each non-empty and stripped, and no newline the lines did not hold |
| SyncEngine.ParseExtensionList | src/main.py:70 | every parsed id is non-empty, stripped and holds no newline |
| SyncEngine.KeepNonBlankOfClean | src/main.py:70 | clean ids pass the filter unchanged |
| SyncEngine.ParseListedIds | src/main.py:67-70 | clean ids printed one per line parse back to the same ids, in order |
| SyncEngine.ParseEmptyListing | src/main.py:70 | an empty listing parses to no id |
| SyncEngine.ListingOfThreeIds | src/main.py:70 | `"ext1\next2\next3\n"` parses to the three ids |
| SyncEngine.InstalledExtensions | src/main.py:60-76 | `get_installed_extensions` yields only clean ids, and none when the CLI is unavailable, the listing fails or it times out |
| SyncEngine.DefaultSettingsPath | src/main.py:33-40 | the settings path ends in `Code/User/settings.json` on every platform |
| SyncEngine.SettingsDocument | src/main.py:78-92 | (no ensures) `get_settings`: the settings file's document, `{}` when it is missing or not JSON text; `VSCodeSync.ExportConfig` and `PresetCatalog.PresetManager.CreatePresetFromCurrent` state what they carry from it |
| SyncEngine.VSCodeSync.constructor | src/main.py:27-31 | the platform name is kept and the settings path is the one `_get_settings_path` picks |
| SyncEngine.VSCodeSync.ExportedBundle | src/main.py:94-110 | (no ensures) the bundle `export_config` assembles, with `{}` settings when settings are not included; `SyncEngine.BundleShape` states its shape |
| SyncEngine.VSCodeSync.BackupPath | src/main.py:170 | (no ensures) `with_suffix('.backup.json')` of the settings path; `SyncEngine.BackupPathDiffers` states it is never the settings path |
| SyncEngine.VSCodeSync.ExportConfig | src/main.py:94-148 | export succeeds exactly when the output path is writable, and then writes only the encoded bundle there |
| SyncEngine.VSCodeSync.SettingsStep | src/main.py:249-262 | (no ensures) `_update_settings`: the document replaces the settings file exactly when it is writable, and the result says whether it did; `SyncEngine.ApplyStepFiles` and `SyncEngine.ApplyBundle` state it |
| SyncEngine.VSCodeSync.BackupStep | src/main.py:168-172 | (no ensures) the backup copy, made only when requested and the settings file exists; `SyncEngine.ImportBackupHoldsOldSettings` states it |
| SyncEngine.VSCodeSync.ApplyStep | src/main.py:174-184 | (no ensures) the install and settings steps and their conjunction; `SyncEngine.ApplyStepFiles` and `SyncEngine.ApplyBundle` state it |
| SyncEngine.VSCodeSync.ImportSpec | src/main.py:150-188 | (no ensures) `import_config` on the state before it; `SyncEngine.ImportFailsBeforeAnyChange`, `SyncEngine.ImportBackupHoldsOldSettings`, `SyncEngine.ImportWritesOnlySettingsAndBackup` and `SyncEngine.ImportOfWellFormedBundle` state its properties |
| SyncEngine.VSCodeSync.InstallExtensions | src/main.py:212-247 | `_install_extensions` is the install step, with the result and the new state given by it |
| SyncEngine.VSCodeSync.ImportConfig | src/main.py:150-188 | `import_config` is `ImportSpec`, with the result and the new state given by it |
| SyncEngine.Bundle | src/main.py:102-110 | (no ensures) the bundle `{metadata, extensions, settings}`; `SyncEngine.BundleShape` states its keys, extensions and settings |
| SyncEngine.IsZipPath | src/main.py:114 | (no ensures) the `.zip` suffix test, in any letter case, that export and import both use; `SyncEngine.DecodeEncode` relies on the two agreeing |
| SyncEngine.Encode | src/main.py:113-148 | (no ensures) the content written: an archive holding `vscode_config.json` and, when the settings file exists, `settings.json`, or JSON text; `SyncEngine.DecodeEncode` states the round trip |
| SyncEngine.Decode | src/main.py:160-210 | (no ensures) reading an input by the same suffix test; `Files.DecodeJson` and `Files.DecodeZipEntry` state when it succeeds, `SyncEngine.DecodeEncode` the round trip |
| SyncEngine.InstallStep | src/main.py:212-247 | (no ensures) `_install_extensions`: false with no call without the CLI, true for an empty value, else one call per item and true exactly when none fails; `SyncEngine.InstallStepOfIds` and `SyncEngine.InstallStepKeepsFiles` state it |
| SyncEngine.DecodeEncode | src/main.py:122-148 | decoding what export encoded for the same path gives the bundle back, in JSON and in ZIP form |
| SyncEngine.BundleShape | src/main.py:102-110 | the bundle has exactly the keys metadata, extensions and settings, and carries the extensions in order and the settings as given |
| SyncEngine.ImportFailsBeforeAnyChange | src/main.py:155-166 | a missing, undecodable or falsy input fails the import with nothing changed |
| SyncEngine.BackupPathDiffers | src/main.py:170 | the backup path is never the settings path |
| SyncEngine.InstallStepKeepsFiles | src/main.py:212-247 | installing touches no file |
| SyncEngine.ApplyStepFiles | src/main.py:174-184 | the steps after the backup either leave the files alone or replace the settings file by the bundle's settings |
| SyncEngine.ImportBackupHoldsOldSettings | src/main.py:169-172 | a requested backup holds the settings as they were before the import; a backup that cannot be written fails with nothing changed; without a backup the backup path is untouched |
| SyncEngine.ImportWritesOnlySettingsAndBackup | src/main.py:150-188 | import changes no file other than the settings file and its backup |
| SyncEngine.InstallStepOfIds | src/main.py:212-247 | on a non-empty list every id is attempted when the CLI is available; the step succeeds exactly when the CLI is available and no call fails |
| SyncEngine.ApplyBundle | src/main.py:174-184 | with a bundle of ids and settings: the ids are installed in order when requested; the settings file is replaced when requested and truthy; the result is the conjunction of the steps that ran |
| SyncEngine.ImportOfWellFormedBundle | src/main.py:150-188 | import of a well-formed bundle installs its ids in order and makes its settings the settings file, and succeeds exactly when every step that ran did |
| SyncEngine.ExportThenImport | src/main.py:94-188 | a JSON export read back by import installs the exported extensions in order and restores the exported settings |
| SyncEngine.GetRecommendations | src/main.py:375-417 | the result has no duplicates and holds exactly the base extensions and the extensions of the given type |
| SyncEngine.TypeExtensions | src/main.py:415 | (no ensures) `type_extensions.get(dev_type, [])`; `SyncEngine.UnlistedTypeGetsBaseOnly` states the default |
| SyncEngine.UnlistedTypeGetsBaseOnly | src/main.py:415 | a type without its own list gets the base list only |
| OsConfig.GetOs | vscode_sync/config.py:9-17 | the tag is one of macos, windows, linux, unknown |
| OsConfig.GetOsByPrefix | vscode_sync/config.py:9-17 | each tag holds exactly when its own platform prefix does |
| OsConfig.GetOsSamples | cli/vscode_sync/config.py:9-17 | darwin, win32, linux and an unknown platform get their tags |
| OsConfig.SettingsPath | vscode_sync/config.py:20-32 | a path exists exactly for macos, linux, and windows with a non-empty APPDATA, and then ends in `Code/User/settings.json` |
| PresetTable.Names | vscode_sync/main.py:243 | the names are the table's keys, in insertion order |
| PresetTable.Lookup | vscode_sync/main.py:257-258 | a found preset is in the table under that name; absence means the name is not a key |
| PresetTable.PresetOrder | vscode_sync/presets.py:7-71 | the table holds Frontend, Backend, Full-stack, Data Science and Mobile, in that order |
| PresetTable.PresetsDuplicateFree | cli/vscode_sync/presets.py:7-71 | no two presets share a name, and no preset lists an extension twice |
| PresetTable.LookupFindsEntry | vscode_sync/main.py:257 | with unique names, looking an entry up by its name finds that entry |
| CliMain.PromptChoice | vscode_sync/main.py:43-51 | the prompt loop selects code or cursor after reading at least one line, or runs out of input |
| CliMain.SelectIdeSpec | vscode_sync/main.py:23-51 | no IDE exactly when neither CLI is installed; a selected IDE is installed; no prompt when exactly one is |
| CliMain.PromptChoiceFirstAnswer | vscode_sync/main.py:43-51 | the prompt decides on the first line that is "1" or "2" |
| CliMain.PromptChoiceNoAnswer | vscode_sync/main.py:43-51 | without such a line the whole input is read and nothing is selected |
| CliMain.Cli.constructor | vscode_sync/main.py:20 | no IDE is chosen and nothing has been read |
| CliMain.Cli.ReadLine | vscode_sync/main.py:44 | `input().strip()` returns the next line stripped and advances by one; at the end of input it returns nothing |
| CliMain.Cli.SelectIde | vscode_sync/main.py:23-51 | `select_ide` sets the IDE choice and reads as `SelectIdeSpec` says |
| CliMain.ImportExitCode | vscode_sync/main.py:185-234 | import exits 0 exactly when it completed |
| CliMain.CliInstallStep | vscode_sync/main.py:196-216 | (no ensures) the install loop of `import_`: skipped for a falsy value, raising for a value that cannot be iterated, otherwise one call per item with failures only reported; `CliMain.CliInstallStepIgnoresOutcomes` and `CliMain.ImportOfDocument` state it |
| CliMain.CliSettingsStep | vscode_sync/main.py:217-232 | (no ensures) the settings step: the backup copy beside the settings file, whose failure raises, then the settings write, whose failure is only reported; `CliMain.CliSettingsStepIgnoresInstalled` and `CliMain.ImportOfDocument` state it |
| CliMain.ImportCmdSpec | vscode_sync/main.py:178-234 | (no ensures) `import_` on the state before it; `CliMain.ImportInputErrors`, `CliMain.ImportFailureKeepsFiles`, `CliMain.ImportIgnoresInstallOutcomes` and `CliMain.ImportOfDocument` state its properties |
| CliMain.InstallAll | vscode_sync/main.py:196-216 | the install loop of `import_` is `CliInstallStep`, with the result and the new state given by it |
| CliMain.ImportCmd | vscode_sync/main.py:178-234 | `import_` is `ImportCmdSpec`, with the result and the new state given by it |
| CliMain.ImportInputErrors | vscode_sync/main.py:187-195 | a missing input, or one that is not JSON text (an archive among them), exits 1 with nothing changed |
| CliMain.CliInstallStepIgnoresOutcomes | vscode_sync/main.py:200-212 | the install loop's calls and result do not depend on how the calls turn out |
| CliMain.CliSettingsStepIgnoresInstalled | vscode_sync/main.py:217-232 | the settings step looks only at the files and writability, and makes no install call |
| CliMain.ImportIgnoresInstallOutcomes | vscode_sync/main.py:209-212 | install failures are only reported: the outcome, files and calls are the same whatever the calls return |
| CliMain.ImportFailureKeepsFiles | vscode_sync/main.py:178-234 | an import that does not complete changes no file |
| CliMain.ImportOfDocument | vscode_sync/main.py:196-232 | a document with a list of ids installs every id in order; it replaces the settings file by its settings, `{}` when absent; the backup holds the old file |
| CliMain.NoExtensionsSkipsInstalls | vscode_sync/main.py:196-216 | with `--no-extensions` no install call is made and the installed set is unchanged |
| CliMain.NoSettingsPathExits | vscode_sync/main.py:217-222 | with no settings path for the platform the settings step exits 1 and no file changes |
| CliMain.NoBackupLeavesBackup | vscode_sync/main.py:223-226 | the backup is taken only when requested and the settings file exists: otherwise the backup path keeps what it held |
| CliMain.ListedLines | vscode_sync/main.py:132-138 | the listed extensions hold no line boundary, and none when the listing fails |
| CliMain.ListedIds | vscode_sync/main.py:132-138 | a listing that exits with 0 and prints stripped, non-empty, boundary-free ids one per line gives exactly those ids, in order; with `ExportThenImport` the ids installed are those the CLI printed |
| CliMain.ExportData | vscode_sync/main.py:143-163 | for a settings file that reads as text: the document has exactly the keys metadata, extensions and settings, carries the listing, carries the file's document as settings, and `{}` when the file is missing or its text is not JSON |
| CliMain.ExportExitCode | vscode_sync/main.py:144-173 | export exits 1 exactly when the settings file is not UTF-8 text or the archive cannot be written, and 0 exactly when it finishes or only the JSON write fails |
| CliMain.OutDir | vscode_sync/main.py:150-154 | (no ensures) `--output-dir` when given, else the fresh temporary directory |
| CliMain.ExportCmdSpec | vscode_sync/main.py:121-174 | (no ensures) export on the state before it: a settings file that is not UTF-8 text raises before anything is written; a failed JSON write returns with nothing written; otherwise the JSON document is written and then zipped, a failed archive write leaving the JSON file; `ExportAbortsOnUndecodableSettings`, `ExportedArchiveIsNotImportable` and `ExportThenImport` state its properties |
| CliMain.ExportWrites | vscode_sync/main.py:164-173 | (no ensures) the two writes of export: a failed JSON write returns with nothing written; a failed archive write raises and leaves the JSON file |
| CliMain.WriteExport | vscode_sync/main.py:164-173 | the two writes on the machine are `ExportWrites`, with the result and the new state given by it |
| CliMain.ExportedState | vscode_sync/main.py:164-173 | a successful export leaves the state before it with the JSON document and the archive holding it written, and reports that archive |
| CliMain.ExportCmd | vscode_sync/main.py:121-174 | `export` is `ExportCmdSpec`, with the result and the new state given by it |
| CliMain.ExportAbortsOnUndecodableSettings | vscode_sync/main.py:144-149 | a settings file that is not UTF-8 text ends export with exit code 1 and nothing written, because `UnicodeDecodeError` is not among the exceptions caught |
| CliMain.ExportedArchiveIsNotImportable | vscode_sync/main.py:171-192 | the archive holds one entry, the JSON document, and importing the archive fails, because `import_` never unzips |
| CliMain.ExportedFields | vscode_sync/main.py:155-163 | in the exported document, the `extensions` key import reads holds the listed ids and the `settings` key holds the settings document (`{}` when the file is absent or not JSON) |
| CliMain.ExportThenImport | vscode_sync/main.py:121-234 | importing the JSON document export wrote installs the listed extensions in order, and leaves the settings file holding the document it held before export (`{}` when it was absent or not JSON) |
| CliMain.MenuNames | vscode_sync/main.py:243 | the menu is the preset names followed by "Custom" |
| CliMain.ValidChoiceOfNumber | vscode_sync/main.py:249 | the numbers the menu shows are exactly the answers it accepts |
| CliMain.ChoiceIndex | vscode_sync/main.py:250 | a valid answer picks an entry of the menu |
| CliMain.MenuSpec | vscode_sync/main.py:247-252 | the menu loop returns an entry of the menu after reading at least one line |
| CliMain.MenuTakesFirstValidChoice | vscode_sync/main.py:247-252 | the menu takes the first valid answer |
| CliMain.MenuWithoutValidChoice | vscode_sync/main.py:247-252 | without a valid answer the menu chooses nothing |
| CliMain.Cli.ChooseMenu | vscode_sync/main.py:247-252 | the menu loop reads as `MenuSpec` says |
| CliMain.AddExtension | vscode_sync/main.py:266-269 | "add" keeps the list as a prefix and adds the id exactly when it is non-empty and absent; a duplicate-free list stays duplicate-free |
| CliMain.RemoveFirst | vscode_sync/main.py:271-274 | `list.remove` drops exactly one occurrence when present and otherwise changes nothing; on a duplicate-free list the id is gone |
| CliMain.ApplyEdit | vscode_sync/main.py:264-278 | an edit keeps a duplicate-free list duplicate-free |
| CliMain.EditStep | vscode_sync/main.py:264-278 | one pass reads one line ("done"), two lines (add or remove) or ends the input, and keeps the list duplicate-free; "done" finishes, and any other action reads one line and keeps the list as it was |
| CliMain.EditSpec | vscode_sync/main.py:263-278 | the add/remove loop ends after reading at least one line and keeps the list duplicate-free |
| CliMain.EditAddThenDone | vscode_sync/main.py:265-269 | "add", an id, "done" appends the stripped id unless blank or already listed |
| CliMain.EditRemoveThenDone | vscode_sync/main.py:270-274 | "remove", an id, "done" drops its first occurrence |
| CliMain.Cli.EditOnce | vscode_sync/main.py:264-278 | one pass reads as `EditStep` says |
| CliMain.Cli.EditExtensions | vscode_sync/main.py:263-278 | the add/remove loop reads as `EditSpec` says |
| CliMain.InferValue | vscode_sync/main.py:288-297 | a typed value becomes a boolean, an integer, a float or the text itself; text and floats keep the typed characters |
| CliMain.InferNumber | vscode_sync/main.py:292 | a decimal number becomes that integer, not a float |
| CliMain.InferNegativeNumber | vscode_sync/main.py:292 | a negative decimal number becomes that integer |
| CliMain.InferBool | vscode_sync/main.py:288-289 | true and false, in any letter case, become booleans |
| CliMain.InferText | vscode_sync/main.py:296-297 | text holding a character that is neither a letter nor part of a number stays text |
| CliMain.InferValueKinds | vscode_sync/main.py:288-297 | a boolean exactly for true/false in any case, an integer exactly for an `int()` literal that is not one, a float exactly for a `float()` literal that is neither |
| CliMain.InferDecimal | vscode_sync/main.py:295 | digits, a '.', and digits (such as 1.5) become a float keeping the typed literal |
| CliMain.DottedNotInt | vscode_sync/main.py:292 | a literal that starts with a digit and holds a '.' is rejected by `int()` |
| CliMain.DottedIsDecimal | vscode_sync/main.py:295 | digits, a '.', and digits are accepted by `float()` |
| CliMain.MantissaOfNoExponent | vscode_sync/main.py:295 | a literal without 'e' or 'E' is all mantissa |
| CliMain.InferWord | vscode_sync/main.py:296-297 | a word of letters other than true, false, inf, infinity and nan (such as off or dark) stays text |
| CliMain.NotIntLiteral | vscode_sync/main.py:292 | a character outside digits, '_' and the sign rules out `int()` |
| CliMain.NotDecimalFloat | vscode_sync/main.py:295 | such a character also rules out a decimal `float()` |
| CliMain.IsIntLiteral | vscode_sync/main.py:292 | (no ensures) what `int()` accepts: an optional sign, then digit groups joined by single underscores; `CliMain.InferNumber` and `CliMain.NotIntLiteral` state it |
| CliMain.IntLiteralValue | vscode_sync/main.py:292 | (no ensures) the value `int()` gives such a literal; `CliMain.InferNumber` and `CliMain.InferNegativeNumber` state it |
| CliMain.IsFloatLiteral | vscode_sync/main.py:295 | (no ensures) what `float()` accepts: an optional sign, then inf, infinity or nan in any case, or a decimal mantissa with an optional exponent; `CliMain.NotDecimalFloat` states it |
| CliMain.SettingsStep | vscode_sync/main.py:284-299 | one pass reads "done", a key and a value, or ends the input, and drops no key |
| CliMain.SettingsEditSpec | vscode_sync/main.py:283-299 | the settings loop ends after reading at least one line and drops no key |
| CliMain.SettingsEditOverwrites | vscode_sync/main.py:298 | a key typed again takes the new value |
| CliMain.Cli.SettingsOnce | vscode_sync/main.py:284-299 | one pass reads as `SettingsStep` says |
| CliMain.Cli.EditSettings | vscode_sync/main.py:283-299 | the settings loop reads as `SettingsEditSpec` says |
| CliMain.ExtensionPhase | vscode_sync/main.py:262 | the extensions question keeps a duplicate-free list duplicate-free |
| CliMain.SettingsPhase | vscode_sync/main.py:282 | the settings question drops no key |
| CliMain.Cli.AskExtensions | vscode_sync/main.py:262-278 | the question and loop read as `ExtensionPhase` says |
| CliMain.Cli.AskSettings | vscode_sync/main.py:282-299 | the question and loop read as `SettingsPhase` says |
| CliMain.Decide | vscode_sync/main.py:303 | the session is confirmed with its own extensions and settings, or aborted, or the input has run out |
| CliMain.Cli.Confirm | vscode_sync/main.py:303 | the decision reads as `Decide` says |
| CliMain.StartingPoint | vscode_sync/main.py:253-258 | (no ensures) an empty session for Custom, else copies of the chosen preset's extensions and settings; `CliMain.StartingPointOfMenu` states both cases |
| CliMain.StartingPointOfMenu | vscode_sync/main.py:253-258 | Custom starts with no extensions and no settings; any other entry starts with the extensions and settings PRESETS holds under its name |
| CliMain.AfterExtensions | vscode_sync/main.py:279-303 | the settings question and the decision end at a position between where they start and the end of input |
| CliMain.AfterMenu | vscode_sync/main.py:259-303 | the session after the menu ends at a position between where it starts and the end of input; `CliMain.AfterMenuKeeps` states what a confirmed session keeps |
| CliMain.WizardSpec | vscode_sync/main.py:238-303 | the wizard up to its decision ends at a position between where it starts and the end of input; `CliMain.WizardConfirmedIsDuplicateFree` states what a confirmed session keeps |
| CliMain.AfterMenuKeeps | vscode_sync/main.py:259-303 | a confirmed session after a menu choice lists no extension twice and drops no setting |
| CliMain.WizardConfirmedIsDuplicateFree | vscode_sync/main.py:238-303 | a confirmed wizard session lists no extension twice and keeps every setting of the preset it started from |
| CliMain.Cli.Session | vscode_sync/main.py:259-303 | the session after the menu reads as `AfterMenu` says |
| CliMain.Cli.Wizard | vscode_sync/main.py:238-303 | the wizard up to its decision reads as `WizardSpec` says and leaves the IDE choice alone |
| CliMain.WizardDocument | vscode_sync/main.py:305 | (no ensures) the document `{extensions, settings}` the apply step writes to its temporary file |
| CliMain.ApplyFrom | vscode_sync/main.py:304-308 | (no ensures) the apply step importing a given path: the temporary file is written (a failed write raises), `import_` runs with every step, and the temporary file is unlinked only when `import_` returns normally |
| CliMain.ApplyAsWritten | vscode_sync/main.py:304-308 | (no ensures) the apply step as written, importing the module's own source; `CliMain.WizardApplyReadsOwnSource` states its outcome |
| CliMain.ApplyIntended | vscode_sync/main.py:304-308 | (no ensures) the apply step importing the temporary file; `CliMain.ApplyIntendedImportsSession` states its outcome |
| CliMain.WizardApplyReadsOwnSource | vscode_sync/main.py:304-308 | as written, a confirmed session imports the module's own source file: the import exits 1; nothing is installed; the settings are untouched; the temporary file stays behind |
| CliMain.ApplyIntendedImportsSession | vscode_sync/main.py:304-308 | importing the temporary file instead installs the session's extensions in order, writes its settings after the backup, and removes the temporary file |
| CliMain.ApplyConfirmed | vscode_sync/main.py:304-308 | the corrected apply step on the machine is `ApplyIntended`, with the result and the new state given by it |
| SyncConfigModel.DefaultConfigDir | src/config.py:17 | the default configuration directory is `.vscode-sync` in the home directory |
| SyncConfigModel.DefaultsLayout | src/config.py:18-19 | the default presets and backups directories are `presets` and `backups` inside it, and differ |
| SyncConfigModel.Defaults | src/config.py:16-29 | (no ensures) the dataclass defaults, with the directories under the home directory; `SyncConfigModel.DefaultConfigDir` and `SyncConfigModel.DefaultsLayout` state them |
| SyncConfigModel.LoadPath | src/config.py:40-41 | (no ensures) the given path, else `config.json` in the default configuration directory; `SyncConfigModel.SaveThenLoad` relates it to `SavePath` |
| SyncConfigModel.SavePath | src/config.py:61-62 | (no ensures) the given path, else `config.json` in this record's configuration directory |
| SyncConfigModel.ToJson | src/config.py:64-68 | the saved object has exactly the nine field keys |
| SyncConfigModel.FromJson | src/config.py:50-55 | a record is built only from an object whose keys are all fields |
| SyncConfigModel.FromJsonOfToJson | src/config.py:50-68 | reading back what save writes gives the same record |
| SyncConfigModel.FromJsonFallbacks | src/config.py:55-57 | an empty object gives the defaults; an unknown key makes the constructor fail |
| SyncConfigModel.Load | src/config.py:38-57 | a missing file gives the defaults |
| SyncConfigModel.LoadFallsBack | src/config.py:43-57 | a file that is not JSON text, or whose document `SyncConfig(**data)` rejects, gives the defaults; otherwise load gives the record the document denotes |
| SyncConfigModel.SaveThenLoad | src/config.py:38-71 | save then load gives the record back when both use the same file |
| SyncConfigModel.Save | src/config.py:59-71 | save writes the record's JSON form exactly when the path is writable, and changes nothing else |
| SyncConfigModel.Padded | src/config.py:87 | a strftime field has the given width, only digits, and denotes the number when it fits |
| SyncConfigModel.Stamp | src/config.py:87 | `%Y%m%d_%H%M%S` is 15 characters: digits with '_' at index 8 |
| SyncConfigModel.StampParts | src/config.py:87 | each field of the stamp denotes the matching field of the time |
| SyncConfigModel.StampIdentifiesSecond | src/config.py:87 | two stamps are equal exactly when the times agree down to the second |
| SyncConfigModel.JsonFileGlobbed | src/config.py:90-96 | `dir/prefix+rest.json` is found by the glob `prefix*.json` in dir, and its stem is `prefix+rest` |
| SyncConfigModel.JoinedJsonStem | src/config.py:92 | the stem of `dir/stem.json` is stem |
| SyncConfigModel.Enumerate | src/config.py:92 | the directory listing yields each file once |
| SyncConfigModel.StemList | src/config.py:92 | one stem per file, and exactly the stems of the files |
| SyncConfigModel.GlobStemList | src/config.py:90-96 | one stem per globbed file, and exactly their stems |
| SyncConfigModel.Disk.constructor | src/config.py:103-104 | the disk holds the given modification times and the given set of files unlink can remove |
| SyncConfigModel.WithoutOlder | src/config.py:102-104 | exactly the victims modified before the cutoff are gone; every other file keeps its time |
| SyncConfigModel.Cleaned | src/config.py:98-104 | exactly the backup files older than the cutoff are gone; every other file keeps its time |
| SyncConfigModel.UnlinkFails | src/config.py:102-104 | (no ensures) some victim older than the cutoff cannot be unlinked |
| SyncConfigModel.RemoveOlder | src/config.py:102-104 | the unlink loop raises exactly when `UnlinkFails`; it only removes victims older than the cutoff that can be removed, changes no time, and without a raise leaves `WithoutOlder` of the disk |
| SyncConfigModel.CleanedIdempotent | src/config.py:98-104 | a second cleanup with the same cutoff removes nothing more |
| SyncConfigModel.CleanedSparesPresets | src/config.py:98-104 | with separate directories the cleanup never removes a preset file |
| SyncConfigModel.ConfigManager.constructor | src/config.py:77-78 | the manager holds the loaded record |
| SyncConfigModel.ConfigManager.PresetPath | src/config.py:80-82 | (no ensures) `presets_dir / name.json`; `SyncConfigModel.ConfigManager.PresetPathListed` states it is listed back under name |
| SyncConfigModel.ConfigManager.BackupPath | src/config.py:84-88 | (no ensures) `backup_dir / backup_<timestamp>.json`, the call's time printed to the second by default; `SyncConfigModel.ConfigManager.BackupPathListed` and `SyncConfigModel.ConfigManager.SameSecondSameBackup` state it |
| SyncConfigModel.ConfigManager.PresetPathListed | src/config.py:80-92 | a preset saved under a plain name is listed back under that name |
| SyncConfigModel.ConfigManager.BackupPathListed | src/config.py:84-104 | a backup path is one the backup listing and the cleanup see, listed as `backup_` plus the timestamp |
| SyncConfigModel.ConfigManager.SameSecondSameBackup | src/config.py:84-88 | without a timestamp, two backups taken in the same second get the same path |
| SyncConfigModel.ConfigManager.ListPresets | src/config.py:90-92 | `list_presets` yields one stem per `*.json` file of the presets directory |
| SyncConfigModel.ConfigManager.ListBackups | src/config.py:94-96 | `list_backups` yields one stem per `backup_*.json` file of the backup directory |
| SyncConfigModel.ConfigManager.CleanupOldBackups | src/config.py:98-104 | with cutoff now minus the retention days: the cleanup raises exactly when an old backup file cannot be unlinked; it only removes old backup files, changes no time, and without a raise leaves `Cleaned` of the disk |
| PresetCatalog.Keys | src/presets.py:198 | the keys of the built-in table, in order |
| PresetCatalog.FindBuiltIn | src/presets.py:174-175 | a found preset is in the table under that key; absence means exactly that the key is not built in |
| PresetCatalog.PresetJson | src/presets.py:21-29 | a built-in preset has exactly the keys name, description, dev_type, languages, extensions and settings |
| PresetCatalog.BuiltInCatalog | src/presets.py:20-169 | the keys are frontend, backend, fullstack, data-science and mobile, in order, each preset's dev_type equal to its key |
| PresetCatalog.BuiltInsDuplicateFree | src/presets.py:20-169 | no two built-in presets share a key, and none lists an extension twice |
| PresetCatalog.BuiltInsCoverRecommendations | src/presets.py:20-169 | every built-in preset already holds the extensions `get_recommendations` adds for its type |
| PresetCatalog.FindBuiltInEntry | src/presets.py:174-175 | looking a built-in key up finds its entry |
| PresetCatalog.IsoFormat | src/presets.py:191 | `isoformat()` is 19 characters, or 26 with microseconds |
| PresetCatalog.IsoParts | src/presets.py:191 | each field of the isoformat string denotes the matching field of the time |
| PresetCatalog.IsoFormatIdentifiesTime | src/presets.py:191 | two isoformat strings are equal exactly when the times are |
| PresetCatalog.PresetManager.constructor | src/presets.py:14-16 | the manager uses the given configuration manager, or a fresh one that loaded the default file |
| PresetCatalog.PresetManager.GetPreset | src/presets.py:171-186 | a built-in key gives its preset; otherwise a missing file, or one that is not JSON text, gives nothing, a file holding a non-null document gives that document, and a found preset is never null |
| PresetCatalog.PresetManager.SavePreset | src/presets.py:188-194 | the preset is stamped with `created_at` and written to its path exactly when the path is writable |
| PresetCatalog.PresetManager.ListPresets | src/presets.py:196-200 | the names are strictly sorted and are exactly the built-in keys and the user preset stems |
| PresetCatalog.PresetManager.DeletePreset | src/presets.py:202-211 | never touches a built-in preset; returns False for a built-in or missing preset; removes an existing user file and returns True, or raises (no result) when the unlink fails, changing nothing |
| PresetCatalog.PresetManager.DeleteOutcome | src/presets.py:202-211 | (no ensures) False for a built-in or missing preset, True once the file is unlinked, no result when the unlink raises; `DeletePreset` states it |
| PresetCatalog.PresetManager.CreatePresetFromCurrent | src/presets.py:213-232 | the preset carries the installed extensions and current settings, with dev_type custom; it is stamped at save time and written like `save_preset` |
| PresetCatalog.CurrentPreset | src/presets.py:213-229 | (no ensures) the dictionary `create_preset_from_current` assembles before stamping; `CreatePresetFromCurrent` states what it carries |
| PresetCatalog.BuiltInShadowsUserFile | src/presets.py:174-175 | a user file cannot replace a built-in preset |
| PresetCatalog.GetAfterSave | src/presets.py:171-194 | a preset saved under a name that is not built in is read back as written, `created_at` included |
| PresetCatalog.GetAfterDelete | src/presets.py:178-186 | once its file is gone, a user preset is no longer found |
| PresetCatalog.DeleteTwice | src/presets.py:202-211 | deleting again finds nothing and returns False |

## Findings

| source | as written | input that shows it | evidently intended | confidence | as-written member | corrected member |
|---|---|---|---|---|---|---|
| vscode_sync/main.py:304-308 | after a confirmed wizard session, the configuration is written to a temporary file, but `import_` is called on `__file__`, the module's own Python source | any session answered "y" at "Apply this configuration?" | `import_(tmp_path, ...)`, importing the file just written | high (not executed) | CliMain.WizardApplyReadsOwnSource | CliMain.ApplyIntendedImportsSession |

The as-written apply step is `CliMain.ApplyAsWritten`. Its import reads
Python source as JSON and exits 1, so the wizard never installs anything and
leaves the temporary file behind. The corrected step is `CliMain.ApplyIntended`,
run on the machine by `CliMain.ApplyConfirmed`.

## Left out

- Subprocesses (`code --version`, `--list-extensions`, `--install-extension`), the clock (`datetime.now()`), `sys.platform`, `platform.system()`, `Path.home()`, `APPDATA` and the temporary directory are parameters or fields of `Env`, not calls.
- JSON and ZIP byte formats are abstracted: a file is JSON text holding a document, UTF-8 text that is not JSON, an archive of named entries, or bytes that are not UTF-8. Indentation, `ensure_ascii` and compression are not modelled.
- The `rich`/`typer` layers (console output, progress bars, `Confirm.ask` before import, exit handling) are not modelled. The first generation's `export`, `import_cmd` and `status` commands are thin wrappers around the modelled methods and are not modelled separately.
- `show_status`, the second generation's `status` and `list_repos` only print; they are not modelled.
- `check_cli_tools` is taken to have passed: the modelled commands start after it. Its macOS shell-command installer is not modelled.
- `_get_extensions_path` computes a path that nothing reads; it is not modelled.
- The first generation's older `wizard` and `save_preset` functions (src/main.py:345-372 and 420-435) are not modelled; `get_recommendations`, which they call, is.
- `SyncConfig.__post_init__` creates the three directories; directories are not modelled, so `mkdir` and `exists()` on a directory are left out. For the same reason `CliMain.ExportCmdSpec` does not model export's `out_dir.mkdir(parents=True, exist_ok=True)` for `--output-dir` (vscode_sync/main.py:152) raising, for instance when a file sits at that path, which would exit 1 before any write.
- Path normalisation is not modelled: `Path("")` becoming `"."`, repeated or trailing slashes, and `..`.
- `str.lower`, `str.capitalize` and `str.isdigit` are modelled on ASCII only; Unicode case mapping and non-ASCII digits are left out.
- `float()` accepts digit groups separated by single underscores, an exponent and the special words. The model keeps a float as the literal typed and does not compute its value.
- Iterating a dictionary of extensions in the install loops visits its keys in insertion order. Objects are modelled as maps without order, so this case is modelled as the loop raising.
- `SyncConfigModel.FromJson`: a field of the wrong type is rejected as a whole. Python's dataclass would accept it and fail later or keep it.
- `SyncConfigModel.ValidTime`: years below 1000, which `%Y` and `isoformat` print with fewer digits on some platforms, are excluded.
- `SyncConfigModel.Disk`: modification times are whole seconds, not floats.
- `SyncConfigModel.ConfigManager.CleanupOldBackups`: the glob is taken to be evaluated before any file is unlinked.
- `SyncConfigModel.ConfigManager.CleanupOldBackups`: `stat()` on a globbed file is taken to succeed; a file that disappears between the glob and the `stat` is not modelled.
- `Json.FloatIsZero`: a float literal counts as zero by its digits, not by its value as a double, so a literal that underflows to 0.0 (such as `1e-400`) is counted truthy where Python counts it falsy.
- `Files.IsUtf8Text`: an archive is taken never to be valid UTF-8. An archive whose bytes happen to decode would make export fail JSON parsing and carry `{}` settings instead of raising.
- `PresetCatalog.PresetManager.GetPreset` returns the built-in dictionary itself in Python, so a caller that mutates it changes the table. The model returns a value, so aliasing is not captured.
- `PresetCatalog.PresetManager.SavePreset` mutates the caller's dictionary in place; the model returns the stamped dictionary instead. A failed write raises in Python; the model returns `ok == false` with nothing written.
- `PresetCatalog.PresetManager.constructor` without a given manager creates a `ConfigManager` that loads the default file; the model builds it from the given files.
- `PresetCatalog.PresetManager.GetPreset` on an empty name reads a file whose stem is `.json`; the listing lemmas require a non-empty name without '/'.
- `SyncEngine.VSCodeSync.ExportConfig` when the output path equals the settings path is not singled out: the archive then holds the settings file as it was before the write.
- `CliMain.ExportCmdSpec` when `--output` is `vscode_sync_export.json` is not singled out: the archive path is then the JSON path, and Python zips the file it is overwriting, so the entry would not hold the document. The model's entry holds the document; `ExportedArchiveIsNotImportable` and `ExportThenImport` require the two paths to differ.
- `SyncEngine.VSCodeSync.constructor` requires `APPDATA` on Windows, where Python's `Path(None)` raises.
- `CliMain.Cli.Wizard` stops at the accept/abort decision. The apply step is modelled separately, as written and corrected, by `ApplyAsWritten` and `ApplyIntended`.
- `CliMain.ApplyFrom` does not model the second `check_cli_tools` call inside `import_`.
