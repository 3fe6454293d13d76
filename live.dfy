/** The live system both command-line variants act on: the disk, the editor's
    installed extensions, and the editor's command line, whose answers are
    fixed in advance by an environment record (subprocesses are not run). */
module Live {
  import opened Json
  import opened Files

  /** The answers of the editor's command line and of the disk. */
  datatype Env = Env(
    cliAvailable: bool,               // `code --version` exits with 0 before its timeout
    listTimesOut: bool,               // `code --list-extensions` overruns its timeout
    listExit: int,                    // exit status of `--list-extensions`
    listStdout: string,               // its standard output
    installExit: string -> int,       // exit status of `--install-extension <id>`
    installTimesOut: string -> bool,  // whether that call overruns its timeout
    writable: string -> bool)         // whether writing, copying to or unlinking a path succeeds

  /** An install call fails on a non-zero exit, or, where the caller bounds
      the call by a timeout, when it overruns. */
  predicate Fails(env: Env, bounded: bool, id: string) {
    (bounded && env.installTimesOut(id)) || env.installExit(id) != 0
  }

  /** A snapshot of the live state: files by path, every install call made so
      far in call order, and the extensions installed. */
  datatype World = World(files: map<string, Content>, installLog: seq<string>, installed: set<string>)

  /** The live state an operation changes in place. */
  class Machine {
    var files: map<string, Content>
    var installLog: seq<string>
    var installed: set<string>
    const env: Env

    constructor (files: map<string, Content>, installed: set<string>, env: Env)
      ensures State() == World(files, [], installed) && this.env == env
    {
      this.files := files;
      this.installLog := [];
      this.installed := installed;
      this.env := env;
    }

    function State(): World
      reads this
    {
      World(files, installLog, installed)
    }

    /** One `--install-extension <id>` call. */
    method Install(id: string, bounded: bool) returns (ok: bool)
      modifies this
      ensures ok == !Fails(env, bounded, id)
      ensures State() == AfterInstalls(old(State()), [id], env, bounded)
    {
      ok := !Fails(env, bounded, id);
      installLog := installLog + [id];
      if ok {
        installed := installed + {id};
      }
      assert (set x | x in [id] && !Fails(env, bounded, x)) == if ok then {id} else {};
    }

    /** Writes (or copies) content to a path; a failed write changes nothing. */
    method Write(path: string, c: Content) returns (ok: bool)
      modifies this
      ensures ok == env.writable(path)
      ensures State() == if ok then old(State()).(files := old(files)[path := c]) else old(State())
    {
      ok := env.writable(path);
      if ok {
        files := files[path := c];
      }
    }

    /** Unlinks a path; a failed unlink changes nothing. */
    method Remove(path: string) returns (ok: bool)
      modifies this
      ensures ok == env.writable(path)
      ensures State() == if ok then old(State()).(files := old(files) - {path}) else old(State())
    {
      ok := env.writable(path);
      if ok {
        files := files - {path};
      }
    }
  }

  /** The state after the given install calls. */
  function AfterInstalls(w: World, attempted: seq<string>, env: Env, bounded: bool): World {
    w.(installLog := w.installLog + attempted,
       installed := w.installed + (set id | id in attempted && !Fails(env, bounded, id)))
  }

  lemma AfterInstallsStep(w: World, a: seq<string>, id: string, env: Env, bounded: bool)
    ensures AfterInstalls(w, a + [id], env, bounded)
         == AfterInstalls(AfterInstalls(w, a, env, bounded), [id], env, bounded)
  {
    assert w.installLog + (a + [id]) == w.installLog + a + [id];
    assert (set x | x in a + [id] && !Fails(env, bounded, x))
        == (set x | x in a && !Fails(env, bounded, x)) + (set x | x in [id] && !Fails(env, bounded, x));
  }

  /** What a loop over install calls did: the ids it called in order, the ids
      that failed, and whether it stopped on an item that is not a string
      (the call then raises TypeError and the loop ends there). */
  datatype InstallRun = InstallRun(attempted: seq<string>, failed: seq<string>, crashed: bool)

  function RunInstalls(items: seq<Json>, env: Env, bounded: bool): (r: InstallRun)
    ensures |r.attempted| <= |items|
    ensures forall i :: 0 <= i < |r.attempted| ==> items[i] == JString(r.attempted[i])
    ensures r.crashed <==> |r.attempted| < |items|
    ensures r.crashed ==> !items[|r.attempted|].JString?
    ensures forall id :: id in r.failed <==> id in r.attempted && Fails(env, bounded, id)
  {
    if items == [] then InstallRun([], [], false)
    else
      var pre := RunInstalls(items[..|items| - 1], env, bounded);
      var last := items[|items| - 1];
      if pre.crashed then pre
      else if !last.JString? then pre.(crashed := true)
      else InstallRun(pre.attempted + [last.s],
                      pre.failed + (if Fails(env, bounded, last.s) then [last.s] else []),
                      false)
  }

  /** The run over one more item, when the run so far did not stop. */
  lemma RunInstallsStep(items: seq<Json>, i: nat, env: Env, bounded: bool)
    requires i < |items| && !RunInstalls(items[..i], env, bounded).crashed
    ensures var pre := RunInstalls(items[..i], env, bounded);
      RunInstalls(items[..i + 1], env, bounded)
        == if items[i].JString? then
             InstallRun(pre.attempted + [items[i].s],
                        pre.failed + (if Fails(env, bounded, items[i].s) then [items[i].s] else []), false)
           else pre.(crashed := true)
  {
    assert items[..i + 1][..i] == items[..i];
  }

  /** Every item of a list of strings is attempted, in order. */
  lemma RunInstallsAttemptsAll(ids: seq<string>, env: Env, bounded: bool)
    ensures RunInstalls(Strings(ids), env, bounded).attempted == ids
    ensures !RunInstalls(Strings(ids), env, bounded).crashed
  {
    var r := RunInstalls(Strings(ids), env, bounded);
    assert |r.attempted| == |ids|;
  }

  /** A run that stopped on a prefix stops there on the whole list. */
  lemma {:induction false} RunInstallsCrashPersists(items: seq<Json>, k: nat, env: Env, bounded: bool)
    requires k <= |items|
    requires RunInstalls(items[..k], env, bounded).crashed
    ensures RunInstalls(items, env, bounded) == RunInstalls(items[..k], env, bounded)
    decreases |items| - k
  {
    if k < |items| {
      assert items[..k + 1][..k] == items[..k];
      RunInstallsCrashPersists(items, k + 1, env, bounded);
    } else {
      assert items[..k] == items;
    }
  }

  /** Which calls a run makes, and whether it stops early, does not depend on
      how the calls turn out. */
  lemma {:induction false} RunInstallsIgnoresOutcomes(items: seq<Json>, env1: Env, env2: Env, bounded: bool)
    ensures RunInstalls(items, env1, bounded).attempted == RunInstalls(items, env2, bounded).attempted
    ensures RunInstalls(items, env1, bounded).crashed == RunInstalls(items, env2, bounded).crashed
    decreases |items|
  {
    if items != [] {
      RunInstallsIgnoresOutcomes(items[..|items| - 1], env1, env2, bounded);
    }
  }
}
