/**
 * `ModuleManager`: the installed modules, the table of running modules, and the
 * operations that launch, stop, remove and install modules, locally or, when it was
 * given an SSH session, on the remote machine.
 */
module Modules {
  import opened Wrappers
  import opened PyStrings
  import opened Runtime
  import opened Commands
  import opened LineEndings
  import opened Descriptor
  import opened Ssh

  // ----- Installing dependencies -----

  /** `f"sudo apt install -y {dep}"`, run on the remote machine. */
  function RemoteInstallCommand(dep: string): string {
    "sudo apt install -y " + dep
  }

  /** `['sudo', 'apt', 'install', '-y', dep]`, run locally. */
  function LocalInstallArgv(dep: string): seq<string> {
    ["sudo", "apt", "install", "-y", dep]
  }

  /** The remote installs: one per dependency, in order, with no presence check. */
  function RemoteInstalls(deps: seq<string>): (events: seq<Event>)
    ensures |events| == |deps|
  {
    if deps == [] then [] else [RemoteExec(RemoteInstallCommand(deps[0]))] + RemoteInstalls(deps[1..])
  }

  /** The `k`-th remote install is the one for the `k`-th dependency. */
  lemma {:induction false} RemoteInstallsEach(deps: seq<string>, k: int)
    requires 0 <= k < |deps|
    ensures RemoteInstalls(deps)[k] == RemoteExec(RemoteInstallCommand(deps[k]))
  {
    if k > 0 {
      RemoteInstallsEach(deps[1..], k - 1);
    }
  }

  /** The dependencies the presence check reports absent, in order. */
  function Missing(deps: seq<string>, onPath: set<string>): (r: seq<string>)
    ensures forall d :: d in r <==> d in deps && d !in onPath
  {
    if deps == [] then []
    else (if deps[0] in onPath then [] else [deps[0]]) + Missing(deps[1..], onPath)
  }

  /** The local installs, one `apt install` per dependency missing from the path, and the
      `CalledProcessError` that the first failing one raises, which ends the loop. */
  function LocalInstalls(deps: seq<string>, onPath: set<string>, broken: set<string>)
    : (seq<Event>, Option<Exc>)
  {
    if deps == [] then ([], None)
    else if deps[0] in onPath then LocalInstalls(deps[1..], onPath, broken)
    else if deps[0] in broken then ([Run(LocalInstallArgv(deps[0]))], Some(CalledProcessError))
    else
      var rest := LocalInstalls(deps[1..], onPath, broken);
      ([Run(LocalInstallArgv(deps[0]))] + rest.0, rest.1)
  }

  /** One `apt install` per dependency of `ds`. */
  function Installs(ds: seq<string>): (events: seq<Event>)
    ensures |events| == |ds|
    ensures forall i :: 0 <= i < |ds| ==> events[i] == Run(LocalInstallArgv(ds[i]))
  {
    if ds == [] then [] else [Run(LocalInstallArgv(ds[0]))] + Installs(ds[1..])
  }

  /** When no missing dependency fails, exactly the missing ones are installed, in order. */
  lemma {:induction false} LocalInstallsAllSucceed(deps: seq<string>, onPath: set<string>, broken: set<string>)
    requires forall d :: d in deps && d !in onPath ==> d !in broken
    ensures LocalInstalls(deps, onPath, broken) == (Installs(Missing(deps, onPath)), None)
  {
    if deps != [] {
      LocalInstallsAllSucceed(deps[1..], onPath, broken);
      if deps[0] in onPath {
        assert Missing(deps, onPath) == Missing(deps[1..], onPath);
      } else {
        assert Missing(deps, onPath) == [deps[0]] + Missing(deps[1..], onPath);
        assert Installs(Missing(deps, onPath))[1..] == Installs(Missing(deps[1..], onPath));
      }
    }
  }

  /** The first missing dependency that fails stops the loop: the missing dependencies up
      to and including it are installed, the rest are not tried. */
  lemma {:induction false} LocalInstallsStopAtFailure(deps: seq<string>, onPath: set<string>, broken: set<string>, i: int)
    requires 0 <= i < |deps| && deps[i] !in onPath && deps[i] in broken
    requires forall j :: 0 <= j < i && deps[j] !in onPath ==> deps[j] !in broken
    ensures LocalInstalls(deps, onPath, broken) == (Installs(Missing(deps[..i + 1], onPath)), Some(CalledProcessError))
  {
    if i == 0 {
      var d := deps[0];
      assert deps[..1] == [d] && [d][1..] == [];
      assert Missing([d], onPath) == [d];
      assert Installs([d]) == [Run(LocalInstallArgv(d))];
    } else {
      var tail := deps[1..];
      LocalInstallsStopAtFailure(tail, onPath, broken, i - 1);
      assert deps[..i + 1][1..] == tail[..i];
      if deps[0] in onPath {
        assert Missing(deps[..i + 1], onPath) == Missing(tail[..i], onPath);
      } else {
        assert Missing(deps[..i + 1], onPath) == [deps[0]] + Missing(tail[..i], onPath);
        assert Installs(Missing(deps[..i + 1], onPath))[1..] == Installs(Missing(tail[..i], onPath));
      }
    }
  }

  /** Nothing present on the path is ever installed, and the loop fails exactly when some
      missing dependency fails to install. */
  lemma {:induction false} LocalInstallsOnlyMissing(deps: seq<string>, onPath: set<string>, broken: set<string>)
    ensures forall e :: e in LocalInstalls(deps, onPath, broken).0 ==>
      exists d :: d in deps && d !in onPath && e == Run(LocalInstallArgv(d))
    ensures LocalInstalls(deps, onPath, broken).1.Some? <==>
      exists d :: d in deps && d !in onPath && d in broken
  {
    if deps != [] {
      LocalInstallsOnlyMissing(deps[1..], onPath, broken);
      assert forall d :: d in deps[1..] ==> d in deps;
      assert forall d :: d in deps ==> d == deps[0] || d in deps[1..];
    }
  }

  /** The remote installs from position `i` on: the one for `deps[i]`, then the rest. */
  lemma RemoteInstallsStep(deps: seq<string>, i: int)
    requires 0 <= i < |deps|
    ensures RemoteInstalls(deps[i..]) == [RemoteExec(RemoteInstallCommand(deps[i]))] + RemoteInstalls(deps[i + 1..])
  {
    assert deps[i..][1..] == deps[i + 1..];
  }

  /** The local installs from position `i` on, by what happens to `deps[i]`. */
  lemma LocalInstallsStep(deps: seq<string>, i: int, onPath: set<string>, broken: set<string>)
    requires 0 <= i < |deps|
    ensures LocalInstalls(deps[i..], onPath, broken) ==
      if deps[i] in onPath then LocalInstalls(deps[i + 1..], onPath, broken)
      else if deps[i] in broken then ([Run(LocalInstallArgv(deps[i]))], Some(CalledProcessError))
      else
        var rest := LocalInstalls(deps[i + 1..], onPath, broken);
        ([Run(LocalInstallArgv(deps[i]))] + rest.0, rest.1)
  {
    assert deps[i..][1..] == deps[i + 1..];
  }

  // ----- Launching -----

  /** `f"tmux new-window 'tail -f {logfile_path}'"`, run through the shell. */
  function FollowCommand(path: string): string {
    "tmux new-window 'tail -f " + path + "'"
  }

  /** A log path Python treats as true: present and not empty. */
  predicate Named(logfile: Option<string>) {
    logfile.Some? && logfile.value != ""
  }

  /** Where a local launch sends the module's output: the log file when the module is
      silent and names one, otherwise nowhere special (`None`). */
  function Redirect(silent: bool, logfile: Option<string>): Option<string> {
    if silent && Named(logfile) then logfile else None
  }

  /** `open(path, 'a')`: the file is created empty when missing and kept otherwise. */
  function OpenForAppend(logs: map<string, string>, path: string): (r: map<string, string>)
    ensures path in r && r[path] == (if path in logs then logs[path] else "")
    ensures forall q :: q != path ==> (q in r <==> q in logs) && (q in logs ==> r[q] == logs[q])
  {
    if path in logs then logs else logs[path := ""]
  }

  /** What a remote launch returns once the script has run: writing the output to the
      `# Logfile:` path fails with `TypeError` when there is no such line and with
      `FileNotFoundError` when its value is empty. */
  function SaveResult(logfile: Option<string>): (r: Result<bool, Exc>)
    ensures r == Ok(true) <==> Named(logfile)
    ensures r == Err(TypeError) <==> logfile.None?
    ensures r == Err(FileNotFoundError) <==> logfile == Some("")
  {
    match logfile
    case None => Err(TypeError)
    case Some(p) => if p == "" then Err(FileNotFoundError) else Ok(true)
  }

  /** `open(path, 'w').write(output)`, when the path can be opened. */
  function SaveOutput(logs: map<string, string>, logfile: Option<string>, output: string): (r: map<string, string>)
    ensures Named(logfile) ==> logfile.value in r && r[logfile.value] == output
    ensures forall q :: !(Named(logfile) && q == logfile.value) ==>
      (q in r <==> q in logs) && (q in logs ==> r[q] == logs[q])
  {
    if Named(logfile) then logs[logfile.value := output] else logs
  }

  // ----- The module manager -----

  class ModuleManager {
    const host: Host
    /** `ssh_manager`: the SSH session, if any; while there is one, launches and installs
        go remote. */
    var sshManager: SshModuleManager?
    /** `active_processes`: the running modules started locally, by module name. */
    var activeProcesses: map<string, Handle>

    /** The SSH session shares the host, and the process table holds distinct handles,
        all of them already started. */
    ghost predicate Valid()
      reads this, host
    {
      && (sshManager != null ==> sshManager.host == host)
      && (forall n :: n in activeProcesses ==> activeProcesses[n].pid < host.nextPid)
      && (forall m, n :: m in activeProcesses && n in activeProcesses && m != n ==>
            activeProcesses[m] != activeProcesses[n])
    }

    constructor (host: Host, sshManager: SshModuleManager?)
      requires sshManager != null ==> sshManager.host == host
      ensures this.host == host && this.sshManager == sshManager
      ensures activeProcesses == map[]
      ensures Valid()
    {
      this.host := host;
      this.sshManager := sshManager;
      activeProcesses := map[];
    }

    /** `stop_module`: terminate a tracked module and forget it; an untracked name is
        reported and changes nothing. */
    method StopModule(name: string)
      requires Valid()
      modifies this`activeProcesses, host`trace
      ensures Valid()
      ensures name in old(activeProcesses) ==>
        activeProcesses == old(activeProcesses) - {name}
        && host.trace == old(host.trace) + [Terminate(old(activeProcesses)[name])]
      ensures name !in old(activeProcesses) ==>
        activeProcesses == old(activeProcesses) && host.trace == old(host.trace)
    {
      if name in activeProcesses {
        var process := activeProcesses[name];
        host.trace := host.trace + [Terminate(process)];
        activeProcesses := activeProcesses - {name};
      }
    }

    /** `remove_module`: delete the module file; true exactly when it existed.  The process
        table is left alone, so a running module stays tracked. */
    method RemoveModule(name: string) returns (removed: bool)
      modifies host`modules
      ensures removed <==> name in old(host.modules)
      ensures host.modules == old(host.modules) - {name}
    {
      removed := name in host.modules;
      if removed {
        host.modules := host.modules - {name};
      }
    }

    /** `launch_module`: run an installed module with the collected arguments.  A
        missing module or an unsupported type returns `false` and changes nothing.  With
        an SSH session the file is transferred (twice, as the source does), the script
        is run remotely and its combined output overwrites the `# Logfile:` file; the
        process table is not touched.  Without one the module is started locally (its
        output appended to the log file when it is silent and names one), tracked under
        its name, and a `tmux` window follows the log when `# Follow_log:` is set.  The
        flags and the log path are read from the file before any conversion. */
    method LaunchModule(name: string, args: seq<string>, reply: Reply) returns (r: Result<bool, Exc>)
      requires Valid()
      modifies this`activeProcesses, host`modules, host`logs, host`trace, host`nextPid
      ensures Valid()
      ensures name !in old(host.modules) || InterpreterOf(name).None? ==>
        r == Ok(false) && unchanged(this) && unchanged(host)
      ensures name in old(host.modules) && InterpreterOf(name).Some? && sshManager != null ==>
        var text := old(host.modules)[name];
        var logfile := ParseLogfilePath(Lines(text));
        && host.modules == old(host.modules)[name := ConvertCrlf(ConvertCrlf(text))]
        && activeProcesses == old(activeProcesses) && host.nextPid == old(host.nextPid)
        && (!sshManager.Connected() ==>
              r == Err(AttributeError) && host.logs == old(host.logs) && host.trace == old(host.trace))
        && (sshManager.Connected() ==>
              && r == SaveResult(logfile)
              && host.logs == SaveOutput(old(host.logs), logfile, CombineOutput(reply.stdout, reply.stderr))
              && host.trace == old(host.trace)
                   + [ScpPut(ModulePath(name), sshManager.remotePath, ConvertCrlf(text))]
                   + [ScpPut(ModulePath(name), sshManager.remotePath, ConvertCrlf(ConvertCrlf(text)))]
                   + [RemoteExec(RemoteCommand(sshManager.remotePath, name, args).value)])
      ensures name in old(host.modules) && InterpreterOf(name).Some? && sshManager == null ==>
        var lines := Lines(old(host.modules)[name]);
        var logfile := ParseLogfilePath(lines);
        var redirect := Redirect(ParseSilentFlag(lines), logfile);
        var h := Handle(old(host.nextPid));
        && r == Ok(true)
        && host.modules == old(host.modules)
        && host.nextPid == old(host.nextPid) + 1
        && activeProcesses == old(activeProcesses)[name := h]
        && host.logs == (if redirect.Some? then OpenForAppend(old(host.logs), redirect.value) else old(host.logs))
        && host.trace == old(host.trace)
             + [Spawn(h, ModuleCommand(name, args).value, redirect)]
             + (if ParseFollowLogFlag(lines) && Named(logfile) then [Shell(FollowCommand(logfile.value))] else [])
    {
      if name !in host.modules || ModuleCommand(name, args).None? {
        return Ok(false);
      }
      r := LaunchSupported(name, args, reply);
    }

    /** `launch_module` for a module that is installed and has a supported suffix: remote
        when there is a session, local otherwise. */
    method LaunchSupported(name: string, args: seq<string>, reply: Reply) returns (r: Result<bool, Exc>)
      requires Valid()
      requires name in host.modules && InterpreterOf(name).Some?
      modifies this`activeProcesses, host`modules, host`logs, host`trace, host`nextPid
      ensures Valid()
      ensures sshManager != null ==>
        var text := old(host.modules)[name];
        var logfile := ParseLogfilePath(Lines(text));
        && host.modules == old(host.modules)[name := ConvertCrlf(ConvertCrlf(text))]
        && activeProcesses == old(activeProcesses) && host.nextPid == old(host.nextPid)
        && (!sshManager.Connected() ==>
              r == Err(AttributeError) && host.logs == old(host.logs) && host.trace == old(host.trace))
        && (sshManager.Connected() ==>
              && r == SaveResult(logfile)
              && host.logs == SaveOutput(old(host.logs), logfile, CombineOutput(reply.stdout, reply.stderr))
              && host.trace == old(host.trace)
                   + [ScpPut(ModulePath(name), sshManager.remotePath, ConvertCrlf(text))]
                   + [ScpPut(ModulePath(name), sshManager.remotePath, ConvertCrlf(ConvertCrlf(text)))]
                   + [RemoteExec(RemoteCommand(sshManager.remotePath, name, args).value)])
      ensures sshManager == null ==>
        var lines := Lines(old(host.modules)[name]);
        var logfile := ParseLogfilePath(lines);
        var redirect := Redirect(ParseSilentFlag(lines), logfile);
        var h := Handle(old(host.nextPid));
        && r == Ok(true)
        && host.modules == old(host.modules)
        && host.nextPid == old(host.nextPid) + 1
        && activeProcesses == old(activeProcesses)[name := h]
        && host.logs == (if redirect.Some? then OpenForAppend(old(host.logs), redirect.value) else old(host.logs))
        && host.trace == old(host.trace)
             + [Spawn(h, ModuleCommand(name, args).value, redirect)]
             + (if ParseFollowLogFlag(lines) && Named(logfile) then [Shell(FollowCommand(logfile.value))] else [])
    {
      var lines := Lines(host.modules[name]);
      var silent := ReadSilentFlag(lines);
      var logfile := ReadLogfilePath(lines);
      var command := ModuleCommand(name, args);
      if sshManager != null {
        r := LaunchRemotely(name, args, logfile, reply);
      } else {
        var follow := ReadFollowLogFlag(lines);
        LaunchLocally(name, command.value, Redirect(silent, logfile), follow && Named(logfile), logfile);
        r := Ok(true);
      }
    }

    /** The remote branch of `launch_module`. */
    method LaunchRemotely(name: string, args: seq<string>, logfile: Option<string>, reply: Reply)
      returns (r: Result<bool, Exc>)
      requires sshManager != null && sshManager.host == host
      requires name in host.modules && InterpreterOf(name).Some?
      modifies host`modules, host`logs, host`trace
      ensures host.modules == old(host.modules)[name := ConvertCrlf(ConvertCrlf(old(host.modules)[name]))]
      ensures !sshManager.Connected() ==>
        r == Err(AttributeError) && host.logs == old(host.logs) && host.trace == old(host.trace)
      ensures sshManager.Connected() ==>
        && r == SaveResult(logfile)
        && host.logs == SaveOutput(old(host.logs), logfile, CombineOutput(reply.stdout, reply.stderr))
        && host.trace == old(host.trace)
             + [ScpPut(ModulePath(name), sshManager.remotePath, ConvertCrlf(old(host.modules)[name]))]
             + [ScpPut(ModulePath(name), sshManager.remotePath, ConvertCrlf(ConvertCrlf(old(host.modules)[name])))]
             + [RemoteExec(RemoteCommand(sshManager.remotePath, name, args).value)]
    {
      TransferTwice(name);
      var output := sshManager.RunRemoteScript(name, args, reply);
      if output.Err? {
        return Err(output.error);
      }
      r := SaveResult(logfile);
      host.logs := SaveOutput(host.logs, logfile, output.value);
    }

    /** The two `transfer_file` calls of the remote branch: each converts the file again
        and, when connected, copies the converted text. */
    method TransferTwice(name: string)
      requires sshManager != null && sshManager.host == host
      requires name in host.modules
      modifies host`modules, host`trace
      ensures host.modules == old(host.modules)[name := ConvertCrlf(ConvertCrlf(old(host.modules)[name]))]
      ensures !sshManager.Connected() ==> host.trace == old(host.trace)
      ensures sshManager.Connected() ==>
        host.trace == old(host.trace)
          + [ScpPut(ModulePath(name), sshManager.remotePath, ConvertCrlf(old(host.modules)[name]))]
          + [ScpPut(ModulePath(name), sshManager.remotePath, ConvertCrlf(ConvertCrlf(old(host.modules)[name])))]
    {
      sshManager.TransferFile(name);
      sshManager.TransferFile(name);
    }

    /** The local branch of `launch_module`: `Popen` with the output sent to `redirect`
        when there is one, the new process tracked under `name`, then the `tmux` window
        that follows the log when `follow` holds. */
    method LaunchLocally(name: string, argv: seq<string>, redirect: Option<string>, follow: bool,
                         logfile: Option<string>)
      requires Valid()
      requires follow ==> logfile.Some?
      modifies this`activeProcesses, host`logs, host`trace, host`nextPid
      ensures Valid()
      ensures host.nextPid == old(host.nextPid) + 1
      ensures activeProcesses == old(activeProcesses)[name := Handle(old(host.nextPid))]
      ensures host.logs == if redirect.Some? then OpenForAppend(old(host.logs), redirect.value) else old(host.logs)
      ensures host.trace == old(host.trace)
        + [Spawn(Handle(old(host.nextPid)), argv, redirect)]
        + (if follow then [Shell(FollowCommand(logfile.value))] else [])
    {
      if redirect.Some? {
        host.logs := OpenForAppend(host.logs, redirect.value);
      }
      var process := Handle(host.nextPid);
      host.nextPid := host.nextPid + 1;
      host.trace := host.trace + [Spawn(process, argv, redirect)];
      activeProcesses := activeProcesses[name := process];
      if follow {
        host.trace := host.trace + [Shell(FollowCommand(logfile.value))];
      }
    }

    /** `install_dependencies`: with an SSH session, one remote `apt install` per
        dependency, in order, with no presence check (a missing or unconnected client
        raises `AttributeError` at the first one); without, a local `apt install` for each
        dependency not on the path, stopping at the first that fails.  The session is
        checked once per dependency in the source; it cannot change during the loop, so
        the check is made once here, before the loop of either kind. */
    method InstallDependencies(deps: seq<string>) returns (err: Option<Exc>)
      requires Valid()
      modifies host`trace
      ensures Valid()
      ensures sshManager != null && sshManager.Connected() ==>
        err == None && host.trace == old(host.trace) + RemoteInstalls(deps)
      ensures sshManager != null && !sshManager.Connected() ==>
        err == (if deps == [] then None else Some(AttributeError)) && host.trace == old(host.trace)
      ensures sshManager == null ==>
        host.trace == old(host.trace) + LocalInstalls(deps, host.onPath, host.brokenPackages).0
        && err == LocalInstalls(deps, host.onPath, host.brokenPackages).1
    {
      if sshManager != null {
        err := InstallRemotely(deps);
      } else {
        err := InstallLocally(deps);
      }
    }

    /** The remote loop of `install_dependencies`. */
    method InstallRemotely(deps: seq<string>) returns (err: Option<Exc>)
      requires sshManager != null
      modifies host`trace
      ensures sshManager.Connected() ==>
        err == None && host.trace == old(host.trace) + RemoteInstalls(deps)
      ensures !sshManager.Connected() ==>
        err == (if deps == [] then None else Some(AttributeError)) && host.trace == old(host.trace)
    {
      if deps != [] && !sshManager.Connected() {
        return Some(AttributeError);
      }
      var i := 0;
      while i < |deps|
        invariant 0 <= i <= |deps|
        invariant deps != [] ==> sshManager.Connected()
        invariant host.trace + RemoteInstalls(deps[i..]) == old(host.trace) + RemoteInstalls(deps)
      {
        RemoteInstallsStep(deps, i);
        host.trace := host.trace + [RemoteExec(RemoteInstallCommand(deps[i]))];
        i := i + 1;
      }
      assert deps[i..] == [];
      assert host.trace + [] == host.trace;
      return None;
    }

    /** The local loop of `install_dependencies`. */
    method InstallLocally(deps: seq<string>) returns (err: Option<Exc>)
      modifies host`trace
      ensures host.trace == old(host.trace) + LocalInstalls(deps, host.onPath, host.brokenPackages).0
      ensures err == LocalInstalls(deps, host.onPath, host.brokenPackages).1
    {
      var i := 0;
      while i < |deps|
        invariant 0 <= i <= |deps|
        invariant host.trace + LocalInstalls(deps[i..], host.onPath, host.brokenPackages).0
          == old(host.trace) + LocalInstalls(deps, host.onPath, host.brokenPackages).0
        invariant LocalInstalls(deps[i..], host.onPath, host.brokenPackages).1
          == LocalInstalls(deps, host.onPath, host.brokenPackages).1
      {
        var dep := deps[i];
        LocalInstallsStep(deps, i, host.onPath, host.brokenPackages);
        if dep !in host.onPath {
          host.trace := host.trace + [Run(LocalInstallArgv(dep))];
          if dep in host.brokenPackages {
            return Some(CalledProcessError);
          }
        }
        i := i + 1;
      }
      assert deps[i..] == [];
      assert host.trace + [] == host.trace;
      return None;
    }

    /** `install_module` after the download: the downloaded text is stored as the module
        file and its dependencies are installed.  A failed download (`None`) changes
        nothing. */
    method InstallModule(name: string, downloaded: Option<string>) returns (err: Option<Exc>)
      requires Valid()
      modifies host`modules, host`trace
      ensures Valid()
      ensures downloaded.None? ==> host.modules == old(host.modules) && host.trace == old(host.trace) && err == None
      ensures downloaded.Some? ==> host.modules == old(host.modules)[name := downloaded.value]
      ensures downloaded.Some? && sshManager == null ==>
        var run := LocalInstalls(ParseDependencies(Lines(downloaded.value)), host.onPath, host.brokenPackages);
        host.trace == old(host.trace) + run.0 && err == run.1
      ensures downloaded.Some? && sshManager != null && sshManager.Connected() ==>
        host.trace == old(host.trace) + RemoteInstalls(ParseDependencies(Lines(downloaded.value)))
        && err == None
      ensures downloaded.Some? && sshManager != null && !sshManager.Connected() ==>
        host.trace == old(host.trace)
        && err == if ParseDependencies(Lines(downloaded.value)) == [] then None else Some(AttributeError)
    {
      if downloaded.None? {
        return None;
      }
      host.modules := host.modules[name := downloaded.value];
      err := InstallDeclared(downloaded.value);
    }

    /** The second half of `install_module`: the dependencies a module text declares. */
    method InstallDeclared(text: string) returns (err: Option<Exc>)
      requires Valid()
      modifies host`trace
      ensures sshManager == null ==>
        var run := LocalInstalls(ParseDependencies(Lines(text)), host.onPath, host.brokenPackages);
        host.trace == old(host.trace) + run.0 && err == run.1
      ensures sshManager != null && sshManager.Connected() ==>
        host.trace == old(host.trace) + RemoteInstalls(ParseDependencies(Lines(text))) && err == None
      ensures sshManager != null && !sshManager.Connected() ==>
        host.trace == old(host.trace)
        && err == if ParseDependencies(Lines(text)) == [] then None else Some(AttributeError)
    {
      var deps := ReadDependencies(Lines(text));
      err := InstallDependencies(deps);
    }
  }
}
