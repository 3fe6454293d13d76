/** The settings record of the first-generation tool and the file layout it
    implies (src/config.py): the defaults, the JSON form written by save and
    read by load, the preset and backup file names, the two directory
    listings and the retention cleanup. Paths are strings; the disk is a map
    from path to contents, or, for the cleanup, from path to modification
    time in whole seconds. */
module SyncConfigModel {
  import opened Text
  import opened Paths
  import opened Json
  import opened Files
  import opened Live

  datatype SyncConfig = SyncConfig(
    configDir: string,
    presetsDir: string,
    backupDir: string,
    autoBackup: bool,
    backupRetentionDays: int,
    defaultExportFormat: string,
    confirmDestructiveActions: bool,
    showProgress: bool,
    verbose: bool)

  /** The dataclass defaults. They are evaluated once, when the class is
      defined: the directories hang off the home directory of that moment,
      and presets_dir and backup_dir do not follow a config_dir passed in. */
  function Defaults(home: string): SyncConfig {
    var dir := JoinPath(home, ".vscode-sync");
    SyncConfig(dir, JoinPath(dir, "presets"), JoinPath(dir, "backups"), true, 30, "json", true, true, false)
  }

  /** The default configuration directory is ".vscode-sync" in the home
      directory. */
  lemma DefaultConfigDir(home: string)
    ensures DirPart(Defaults(home).configDir) == if home == "" then "" else home + "/"
    ensures Name(Defaults(home).configDir) == ".vscode-sync"
  {
    JoinedName(home, ".vscode-sync");
  }

  /** The default presets and backups directories are "presets" and
      "backups" directly inside the configuration directory, so they are
      distinct. */
  lemma DefaultsLayout(home: string)
    ensures var c := Defaults(home);
      && Name(c.presetsDir) == "presets" && DirPart(c.presetsDir) == c.configDir + "/"
      && Name(c.backupDir) == "backups" && DirPart(c.backupDir) == c.configDir + "/"
      && c.presetsDir != c.backupDir
  {
    var dir := JoinPath(home, ".vscode-sync");
    assert dir != "";
    DefaultSubdir(dir, "presets");
    DefaultSubdir(dir, "backups");
    assert Name(JoinPath(dir, "presets"))[0] != Name(JoinPath(dir, "backups"))[0];
  }

  lemma DefaultSubdir(dir: string, sub: string)
    requires dir != "" && '/' !in sub
    ensures Name(JoinPath(dir, sub)) == sub && DirPart(JoinPath(dir, sub)) == dir + "/"
  {
    JoinedName(dir, sub);
  }

  // ---------------------------------------------------------------- JSON form

  /** The keyword arguments SyncConfig accepts. */
  const FieldKeys: set<string> := {
    "config_dir", "presets_dir", "backup_dir", "auto_backup", "backup_retention_days",
    "default_export_format", "confirm_destructive_actions", "show_progress", "verbose"}

  /** asdict() with the three path fields turned into strings, as save writes it. */
  function ToJson(c: SyncConfig): (doc: Json)
    ensures doc.JObject? && doc.fields.Keys == FieldKeys
  {
    JObject(map[
      "config_dir" := JString(c.configDir),
      "presets_dir" := JString(c.presetsDir),
      "backup_dir" := JString(c.backupDir),
      "auto_backup" := JBool(c.autoBackup),
      "backup_retention_days" := JInt(c.backupRetentionDays),
      "default_export_format" := JString(c.defaultExportFormat),
      "confirm_destructive_actions" := JBool(c.confirmDestructiveActions),
      "show_progress" := JBool(c.showProgress),
      "verbose" := JBool(c.verbose)])
  }

  /** A string field: the default when absent, None when it is not a string. */
  function ReadString(f: map<string, Json>, key: string, default: string): Option<string> {
    if key !in f then Some(default) else if f[key].JString? then Some(f[key].s) else None
  }

  function ReadBool(f: map<string, Json>, key: string, default: bool): Option<bool> {
    if key !in f then Some(default) else if f[key].JBool? then Some(f[key].b) else None
  }

  function ReadInt(f: map<string, Json>, key: string, default: int): Option<int> {
    if key !in f then Some(default) else if f[key].JInt? then Some(f[key].i) else None
  }

  /** SyncConfig(**data) after the path strings are turned back into paths:
      None where that raises, that is for a document that is not an object,
      for a key that is not a field, and for a path field that is not a
      string; absent fields keep their defaults. */
  function FromJson(doc: Json, home: string): (r: Option<SyncConfig>)
    ensures r.Some? ==> doc.JObject? && doc.fields.Keys <= FieldKeys
  {
    if !doc.JObject? || !(doc.fields.Keys <= FieldKeys) then None
    else
      var f := doc.fields;
      var d := Defaults(home);
      var configDir := ReadString(f, "config_dir", d.configDir);
      var presetsDir := ReadString(f, "presets_dir", d.presetsDir);
      var backupDir := ReadString(f, "backup_dir", d.backupDir);
      var autoBackup := ReadBool(f, "auto_backup", d.autoBackup);
      var retention := ReadInt(f, "backup_retention_days", d.backupRetentionDays);
      var format := ReadString(f, "default_export_format", d.defaultExportFormat);
      var confirm := ReadBool(f, "confirm_destructive_actions", d.confirmDestructiveActions);
      var progress := ReadBool(f, "show_progress", d.showProgress);
      var verbose := ReadBool(f, "verbose", d.verbose);
      if configDir.None? || presetsDir.None? || backupDir.None? || autoBackup.None? || retention.None?
         || format.None? || confirm.None? || progress.None? || verbose.None? then None
      else Some(SyncConfig(configDir.value, presetsDir.value, backupDir.value, autoBackup.value,
                           retention.value, format.value, confirm.value, progress.value, verbose.value))
  }

  /** Reading back what save wrote gives the same record. */
  lemma FromJsonOfToJson(c: SyncConfig, home: string)
    ensures FromJson(ToJson(c), home) == Some(c)
  {
    var f := ToJson(c).fields;
    assert f.Keys == FieldKeys;
    assert ReadString(f, "config_dir", "") == Some(c.configDir);
    assert ReadString(f, "presets_dir", "") == Some(c.presetsDir);
    assert ReadString(f, "backup_dir", "") == Some(c.backupDir);
    assert ReadString(f, "default_export_format", "") == Some(c.defaultExportFormat);
  }

  /** An empty object gives the defaults, and any key that is not a field
      makes the whole document count for nothing. */
  lemma FromJsonFallbacks(f: map<string, Json>, home: string, key: string)
    ensures FromJson(JObject(map[]), home) == Some(Defaults(home))
    ensures key in f && key !in FieldKeys ==> FromJson(JObject(f), home).None?
  {
  }

  // ---------------------------------------------------------------- load / save

  /** Where load reads: the given path, else config.json in the default config_dir. */
  function LoadPath(home: string, configPath: Option<string>): string {
    if configPath.Some? then configPath.value else JoinPath(Defaults(home).configDir, "config.json")
  }

  /** Where save writes: the given path, else config.json in this record's config_dir. */
  function SavePath(c: SyncConfig, configPath: Option<string>): string {
    if configPath.Some? then configPath.value else JoinPath(c.configDir, "config.json")
  }

  /** load: the defaults when the file is missing, unreadable, or holds a
      document SyncConfig(**data) rejects. */
  function Load(files: map<string, Content>, home: string, configPath: Option<string>): (c: SyncConfig)
    ensures LoadPath(home, configPath) !in files ==> c == Defaults(home)
  {
    var path := LoadPath(home, configPath);
    if path !in files then Defaults(home)
    else match DecodeJson(files[path])
      case None => Defaults(home)
      case Some(doc) =>
        match FromJson(doc, home)
        case None => Defaults(home)
        case Some(c) => c
  }

  /** load falls back to the defaults when the file is not JSON text or holds
      a document SyncConfig(**data) rejects, and otherwise gives the record
      the document denotes. */
  lemma LoadFallsBack(files: map<string, Content>, home: string, configPath: Option<string>)
    ensures var p := LoadPath(home, configPath);
      p in files && DecodeJson(files[p]).None? ==> Load(files, home, configPath) == Defaults(home)
    ensures var p := LoadPath(home, configPath);
      p in files && DecodeJson(files[p]).Some? && FromJson(DecodeJson(files[p]).value, home).None?
      ==> Load(files, home, configPath) == Defaults(home)
    ensures var p := LoadPath(home, configPath);
      p in files && DecodeJson(files[p]).Some? && FromJson(DecodeJson(files[p]).value, home).Some?
      ==> Load(files, home, configPath) == FromJson(DecodeJson(files[p]).value, home).value
  {
  }

  /** save followed by load gives every field back, provided both look at the
      same file: with no explicit path that needs config_dir to be the
      default one, since save follows the record and load the default. */
  lemma SaveThenLoad(files: map<string, Content>, home: string, c: SyncConfig, configPath: Option<string>)
    requires configPath.Some? || c.configDir == Defaults(home).configDir
    ensures Load(files[SavePath(c, configPath) := Text(ToJson(c))], home, configPath) == c
  {
    assert SavePath(c, configPath) == LoadPath(home, configPath);
    FromJsonOfToJson(c, home);
  }

  /** save: a failed open raises, and then nothing is written. */
  method Save(m: Machine, c: SyncConfig, configPath: Option<string>) returns (ok: bool)
    modifies m
    ensures ok == m.env.writable(SavePath(c, configPath))
    ensures m.State() == if ok then old(m.State()).(files := old(m.files)[SavePath(c, configPath) := Text(ToJson(c))])
                         else old(m.State())
  {
    ok := m.Write(SavePath(c, configPath), Text(ToJson(c)));
  }

  // ---------------------------------------------------------------- timestamps

  /** A datetime down to the microsecond, with the year range in which %Y
      prints exactly four digits. */
  datatype DateTime = DateTime(year: int, month: int, day: int, hour: int, minute: int, second: int, microsecond: int)

  predicate ValidTime(t: DateTime) {
    1000 <= t.year <= 9999 && 1 <= t.month <= 12 && 1 <= t.day <= 31
    && 0 <= t.hour < 24 && 0 <= t.minute < 60 && 0 <= t.second < 60
    && 0 <= t.microsecond < 1000000
  }

  function Pow10(w: nat): (p: nat)
    ensures p >= 1
  {
    if w == 0 then 1 else 10 * Pow10(w - 1)
  }

  /** n in decimal, zero-padded (or cut) to width digits, as strftime prints a field. */
  function Padded(n: nat, width: nat): (s: string)
    ensures |s| == width
    ensures forall i :: 0 <= i < |s| ==> IsDigit(s[i])
    ensures n < Pow10(width) ==> DigitsValue(s) == n
  {
    if width == 0 then []
    else
      var pre := Padded(n / 10, width - 1);
      var s := pre + ['0' + (n % 10) as char];
      assert s[..|s| - 1] == pre;
      s
  }

  /** strftime("%Y%m%d_%H%M%S"). */
  function Stamp(t: DateTime): (s: string)
    requires ValidTime(t)
    ensures |s| == 15 && s[8] == '_'
    ensures forall i :: 0 <= i < 15 && i != 8 ==> IsDigit(s[i])
  {
    Padded(t.year, 4) + Padded(t.month, 2) + Padded(t.day, 2) + "_"
    + Padded(t.hour, 2) + Padded(t.minute, 2) + Padded(t.second, 2)
  }

  lemma StampParts(t: DateTime)
    requires ValidTime(t)
    ensures var s := Stamp(t);
      && s[..4] == Padded(t.year, 4) && s[4..6] == Padded(t.month, 2) && s[6..8] == Padded(t.day, 2)
      && s[9..11] == Padded(t.hour, 2) && s[11..13] == Padded(t.minute, 2) && s[13..] == Padded(t.second, 2)
  {
    var y, mo, d := Padded(t.year, 4), Padded(t.month, 2), Padded(t.day, 2);
    var h, mi, se := Padded(t.hour, 2), Padded(t.minute, 2), Padded(t.second, 2);
    var s := Stamp(t);
    assert s == y + mo + d + "_" + h + mi + se;
    assert s[..4] == y;
    assert s[4..6] == mo;
    assert s[6..8] == d;
    assert s[9..11] == h;
    assert s[11..13] == mi;
    assert s[13..] == se;
  }

  /** Two timestamps are equal exactly when the times agree down to the
      second: backups made in the same second share a name, and backups made
      in different seconds never do. */
  lemma StampIdentifiesSecond(a: DateTime, b: DateTime)
    requires ValidTime(a) && ValidTime(b)
    ensures Stamp(a) == Stamp(b) <==>
      a.year == b.year && a.month == b.month && a.day == b.day
      && a.hour == b.hour && a.minute == b.minute && a.second == b.second
  {
    if Stamp(a) == Stamp(b) {
      StampParts(a);
      StampParts(b);
      assert DigitsValue(Padded(a.year, 4)) == a.year;
      assert DigitsValue(Padded(b.year, 4)) == b.year;
      assert DigitsValue(Padded(a.month, 2)) == a.month && DigitsValue(Padded(b.month, 2)) == b.month;
      assert DigitsValue(Padded(a.day, 2)) == a.day && DigitsValue(Padded(b.day, 2)) == b.day;
      assert DigitsValue(Padded(a.hour, 2)) == a.hour && DigitsValue(Padded(b.hour, 2)) == b.hour;
      assert DigitsValue(Padded(a.minute, 2)) == a.minute && DigitsValue(Padded(b.minute, 2)) == b.minute;
      assert DigitsValue(Padded(a.second, 2)) == a.second && DigitsValue(Padded(b.second, 2)) == b.second;
    }
  }

  // ---------------------------------------------------------------- listings

  /** p lies directly in dir. */
  predicate InDir(p: string, dir: string) {
    DirPart(p) == if dir == "" then "" else dir + "/"
  }

  /** dir.glob(prefix + "*" + suffix) yields p. */
  predicate Globbed(p: string, dir: string, prefix: string, suffix: string) {
    InDir(p, dir) && MatchesStarPattern(Name(p), prefix, suffix)
  }

  function GlobFiles(paths: set<string>, dir: string, prefix: string, suffix: string): set<string> {
    set p | p in paths && Globbed(p, dir, prefix, suffix)
  }

  /** dir/prefix+rest.json is found by the glob prefix*.json in dir, and
      its stem is prefix+rest. */
  lemma JsonFileGlobbed(dir: string, prefix: string, rest: string)
    requires prefix + rest != "" && '/' !in prefix && '/' !in rest
    ensures Globbed(JoinPath(dir, prefix + rest + ".json"), dir, prefix, ".json")
    ensures Stem(JoinPath(dir, prefix + rest + ".json")) == prefix + rest
  {
    var stem := prefix + rest;
    NoSlashConcat(prefix, rest);
    JsonName(prefix, rest);
    JoinedName(dir, stem + ".json");
    JoinedJsonStem(dir, stem);
  }

  lemma NoSlashConcat(a: string, b: string)
    requires '/' !in a && '/' !in b
    ensures '/' !in a + b
  {
    forall i | 0 <= i < |a + b| ensures (a + b)[i] != '/' {
      if i < |a| { assert (a + b)[i] == a[i]; } else { assert (a + b)[i] == b[i - |a|]; }
    }
  }

  lemma JsonName(prefix: string, rest: string)
    requires '/' !in prefix + rest
    ensures MatchesStarPattern(prefix + rest + ".json", prefix, ".json")
    ensures '/' !in prefix + rest + ".json"
  {
    var n := prefix + rest + ".json";
    assert n[..|prefix|] == prefix;
    assert n[|n| - 5..] == ".json";
    NoSlashConcat(prefix + rest, ".json");
  }

  lemma JoinedJsonStem(dir: string, stem: string)
    requires stem != "" && '/' !in stem
    ensures Stem(JoinPath(dir, stem + ".json")) == stem
  {
    assert stem + ".json" == stem + "." + "json";
    JoinedStem(dir, stem, "json");
  }

  function StemsOf(files: set<string>): set<string> {
    set p | p in files :: Stem(p)
  }

  /** The stems of the files a glob yields. */
  function GlobStems(paths: set<string>, dir: string, prefix: string, suffix: string): set<string> {
    StemsOf(GlobFiles(paths, dir, prefix, suffix))
  }

  /** The files of a set, one by one, in the order the directory yields
      them, which is not modelled. */
  method Enumerate(files: set<string>) returns (list: seq<string>)
    ensures |list| == |files|
    ensures forall p :: p in list <==> p in files
  {
    var pool := files;
    list := [];
    while pool != {}
      invariant pool <= files
      invariant |list| == |files - pool|
      invariant forall p :: p in list <==> p in files - pool
      decreases |pool|
    {
      var p :| p in pool;
      assert files - (pool - {p}) == (files - pool) + {p};
      list := list + [p];
      pool := pool - {p};
    }
  }

  /** [f.stem for f in files]: one stem per file. */
  method StemList(files: set<string>) returns (stems: seq<string>)
    ensures |stems| == |files|
    ensures forall x :: x in stems <==> x in StemsOf(files)
  {
    var list := Enumerate(files);
    stems := [];
    for i := 0 to |list|
      invariant |stems| == i
      invariant forall j :: 0 <= j < i ==> stems[j] == Stem(list[j])
    {
      stems := stems + [Stem(list[i])];
    }
    forall x | x in stems ensures x in StemsOf(files) {
      var j :| 0 <= j < |stems| && stems[j] == x;
      assert list[j] in files;
    }
    forall x | x in StemsOf(files) ensures x in stems {
      var p :| p in files && Stem(p) == x;
      var i :| 0 <= i < |list| && list[i] == p;
      assert stems[i] == x;
    }
  }

  /** The stems of the files dir.glob(prefix + "*" + suffix) yields. */
  method GlobStemList(paths: set<string>, dir: string, prefix: string, suffix: string) returns (stems: seq<string>)
    ensures |stems| == |GlobFiles(paths, dir, prefix, suffix)|
    ensures forall x :: x in stems <==> x in GlobStems(paths, dir, prefix, suffix)
  {
    stems := StemList(GlobFiles(paths, dir, prefix, suffix));
  }

  // ---------------------------------------------------------------- ConfigManager

  /** The modification time of every file on the disk, in whole seconds, and
      which files unlink can remove (for the others it raises OSError). */
  class Disk {
    var mtime: map<string, int>
    const removable: string -> bool

    constructor (mtime: map<string, int>, removable: string -> bool)
      ensures this.mtime == mtime && this.removable == removable
    {
      this.mtime := mtime;
      this.removable := removable;
    }
  }

  /** m without the files of victims modified before the cutoff. */
  function WithoutOlder(m: map<string, int>, victims: set<string>, cutoff: int): (r: map<string, int>)
    ensures forall p :: p in r <==> p in m && !(p in victims && m[p] < cutoff)
    ensures forall p :: p in r ==> r[p] == m[p]
  {
    map p | p in m && !(p in victims && m[p] < cutoff) :: m[p]
  }

  /** Whether some file of victims modified before the cutoff cannot be unlinked. */
  predicate UnlinkFails(m: map<string, int>, victims: set<string>, cutoff: int, removable: string -> bool) {
    exists p :: p in victims && p in m && m[p] < cutoff && !removable(p)
  }

  /** What remains after the cleanup: every backup file older than the
      cutoff is gone; every other file keeps its time. */
  function Cleaned(m: map<string, int>, backupDir: string, cutoff: int): (r: map<string, int>)
    ensures forall p :: p in r <==> p in m && !(Globbed(p, backupDir, "backup_", ".json") && m[p] < cutoff)
    ensures forall p :: p in r ==> r[p] == m[p]
  {
    WithoutOlder(m, GlobFiles(m.Keys, backupDir, "backup_", ".json"), cutoff)
  }

  /** Unlinks, one at a time and in no fixed order, each of victims modified
      before the cutoff; the first unlink that raises ends the loop. It raises
      exactly when some such file cannot be removed; whatever happens, only
      such files that can be removed disappear, and without a raise all of
      them do. */
  method RemoveOlder(disk: Disk, victims: set<string>, cutoff: int) returns (raised: bool)
    modifies disk
    ensures raised <==> UnlinkFails(old(disk.mtime), victims, cutoff, disk.removable)
    ensures forall p :: p in disk.mtime ==> p in old(disk.mtime) && disk.mtime[p] == old(disk.mtime)[p]
    ensures forall p :: p in old(disk.mtime) && !(p in victims && old(disk.mtime)[p] < cutoff && disk.removable(p))
                        ==> p in disk.mtime
    ensures !raised ==> disk.mtime == WithoutOlder(old(disk.mtime), victims, cutoff)
  {
    ghost var m := disk.mtime;
    var pool := victims;
    raised := false;
    while pool != {} && !raised
      invariant pool <= victims
      invariant forall p :: p in disk.mtime ==> p in m && disk.mtime[p] == m[p]
      invariant forall p :: p in m && !(p in victims && m[p] < cutoff && disk.removable(p)) ==> p in disk.mtime
      invariant raised ==> UnlinkFails(m, victims, cutoff, disk.removable)
      invariant !raised ==> forall p :: p in disk.mtime <==> p in m && !(p in victims - pool && m[p] < cutoff)
      invariant !raised ==> forall p :: p in victims - pool && p in m && m[p] < cutoff ==> disk.removable(p)
      decreases |pool|
    {
      var p :| p in pool;
      if p in disk.mtime && disk.mtime[p] < cutoff {
        if disk.removable(p) {
          disk.mtime := disk.mtime - {p};
        } else {
          raised := true;
        }
      }
      pool := pool - {p};
    }
    if !raised {
      assert disk.mtime.Keys == WithoutOlder(m, victims, cutoff).Keys;
    }
  }

  /** Cleaning up twice with the same cutoff removes nothing more. */
  lemma CleanedIdempotent(m: map<string, int>, backupDir: string, cutoff: int)
    ensures Cleaned(Cleaned(m, backupDir, cutoff), backupDir, cutoff) == Cleaned(m, backupDir, cutoff)
  {
    var once := Cleaned(m, backupDir, cutoff);
    var twice := Cleaned(once, backupDir, cutoff);
    assert twice.Keys == once.Keys;
  }

  lemma DirSlashInjective(a: string, b: string)
    ensures (if a == "" then "" else a + "/") == (if b == "" then "" else b + "/") ==> a == b
  {
    if a != "" && b != "" && a + "/" == b + "/" {
      assert a == (a + "/")[..|a|];
      assert b == (b + "/")[..|b|];
    }
  }

  /** With separate directories the cleanup never removes a preset. */
  lemma CleanedSparesPresets(m: map<string, int>, presetsDir: string, backupDir: string, cutoff: int, p: string)
    requires presetsDir != backupDir
    requires p in m && Globbed(p, presetsDir, "", ".json")
    ensures p in Cleaned(m, backupDir, cutoff)
  {
    if Globbed(p, backupDir, "backup_", ".json") {
      DirSlashInjective(presetsDir, backupDir);
      assert false;
    }
  }

  class ConfigManager {
    const config: SyncConfig

    /** ConfigManager(config_path): loads the record once. */
    constructor (files: map<string, Content>, home: string, configPath: Option<string>)
      ensures config == Load(files, home, configPath)
    {
      config := Load(files, home, configPath);
    }

    /** get_preset_path: presets_dir / f"{name}.json" */
    function PresetPath(name: string): string {
      JoinPath(config.presetsDir, name + ".json")
    }

    /** get_backup_path: backup_dir / f"backup_{timestamp}.json", the time
        of the call printed down to the second when no timestamp is given. */
    function BackupPath(timestamp: Option<string>, now: DateTime): string
      requires ValidTime(now)
    {
      JoinPath(config.backupDir, "backup_" + (if timestamp.Some? then timestamp.value else Stamp(now)) + ".json")
    }

    /** A preset saved under a plain name (non-empty, no '/') is listed back
        under that same name. */
    lemma PresetPathListed(paths: set<string>, name: string)
      requires name != "" && '/' !in name && PresetPath(name) in paths
      ensures name in GlobStems(paths, config.presetsDir, "", ".json")
    {
      assert "" + name == name;
      JsonFileGlobbed(config.presetsDir, "", name);
      assert PresetPath(name) in GlobFiles(paths, config.presetsDir, "", ".json");
    }

    /** A backup path is one the backup listing and the cleanup look at, and
        it is listed as "backup_" followed by its timestamp. */
    lemma BackupPathListed(paths: set<string>, timestamp: string, now: DateTime)
      requires ValidTime(now) && '/' !in timestamp && BackupPath(Some(timestamp), now) in paths
      ensures Globbed(BackupPath(Some(timestamp), now), config.backupDir, "backup_", ".json")
      ensures "backup_" + timestamp in GlobStems(paths, config.backupDir, "backup_", ".json")
    {
      JsonFileGlobbed(config.backupDir, "backup_", timestamp);
      assert BackupPath(Some(timestamp), now) in GlobFiles(paths, config.backupDir, "backup_", ".json");
    }

    /** Without a timestamp, two backups taken in the same second get the
        same path. */
    lemma SameSecondSameBackup(a: DateTime, b: DateTime)
      requires ValidTime(a) && ValidTime(b)
      requires a.year == b.year && a.month == b.month && a.day == b.day
      requires a.hour == b.hour && a.minute == b.minute && a.second == b.second
      ensures BackupPath(None, a) == BackupPath(None, b)
    {
      StampIdentifiesSecond(a, b);
    }

    /** list_presets: the stems of the "*.json" files in presets_dir. */
    method ListPresets(paths: set<string>) returns (names: seq<string>)
      ensures |names| == |GlobFiles(paths, config.presetsDir, "", ".json")|
      ensures forall x :: x in names <==> x in GlobStems(paths, config.presetsDir, "", ".json")
    {
      names := GlobStemList(paths, config.presetsDir, "", ".json");
    }

    /** list_backups: the stems of the "backup_*.json" files in backup_dir. */
    method ListBackups(paths: set<string>) returns (names: seq<string>)
      ensures |names| == |GlobFiles(paths, config.backupDir, "backup_", ".json")|
      ensures forall x :: x in names <==> x in GlobStems(paths, config.backupDir, "backup_", ".json")
    {
      names := GlobStemList(paths, config.backupDir, "backup_", ".json");
    }

    /** cleanup_old_backups: each backup file modified before now minus the
        retention period is unlinked, in the order the directory yields them;
        an unlink that raises ends the cleanup and the error propagates. */
    method CleanupOldBackups(disk: Disk, now: int) returns (raised: bool)
      modifies disk
      ensures var cutoff := now - config.backupRetentionDays * 86400;
        raised <==> exists p :: p in old(disk.mtime) && Globbed(p, config.backupDir, "backup_", ".json")
                                && old(disk.mtime)[p] < cutoff && !disk.removable(p)
      ensures forall p :: p in disk.mtime ==> p in old(disk.mtime) && disk.mtime[p] == old(disk.mtime)[p]
      ensures var cutoff := now - config.backupRetentionDays * 86400;
        forall p :: p in old(disk.mtime)
                    && !(Globbed(p, config.backupDir, "backup_", ".json") && old(disk.mtime)[p] < cutoff && disk.removable(p))
                    ==> p in disk.mtime
      ensures !raised ==> disk.mtime == Cleaned(old(disk.mtime), config.backupDir, now - config.backupRetentionDays * 86400)
    {
      var cutoff := now - config.backupRetentionDays * 86400;
      raised := RemoveOlder(disk, GlobFiles(disk.mtime.Keys, config.backupDir, "backup_", ".json"), cutoff);
    }
  }
}
