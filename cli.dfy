/**
 * `Engine`: the interactive shell's state and the commands that change it — `connect`,
 * `disconnect` and `launch` with its argument prompts.  The prompt itself, the menus
 * and the printed messages are not modelled: the user's answers are parameters.
 */
module Cli {
  import opened Wrappers
  import opened PyStrings
  import opened Runtime
  import opened Commands
  import opened Descriptor
  import opened Ssh
  import opened Modules

  /** The remote directory `connect` gives the new session. */
  const RemoteDir := "/tmp/"

  // ----- `connect user@host` -----

  /** `_, user_host = command.split(' ', 1)` then `username, hostname =
      user_host.split('@', 1)`: the unpacking raises `ValueError` when either split
      finds no separator. */
  function ParseConnect(command: string): (r: Result<(string, string), Exc>)
    ensures r.Err? <==> ' ' !in command || '@' !in SplitOnce(command, ' ')[1]
    ensures r.Err? ==> r.error == ValueError
  {
    var words := SplitOnce(command, ' ');
    if |words| != 2 then Err(ValueError)
    else
      var names := SplitOnce(words[1], '@');
      if |names| != 2 then Err(ValueError) else Ok((names[0], names[1]))
  }

  /** A command `<word> <user>@<host>` yields the user and the host back, provided the
      word holds no blank and the user no `@` (the host may hold either). */
  lemma ParseConnectRoundTrip(word: string, user: string, hostname: string)
    requires ' ' !in word && '@' !in user
    ensures ParseConnect(word + " " + user + "@" + hostname) == Ok((user, hostname))
  {
    var rest := user + "@" + hostname;
    assert word + " " + user + "@" + hostname == word + [' '] + rest;
    SplitOnceAt(word, rest, ' ');
    assert rest == user + ['@'] + hostname;
    SplitOnceAt(user, hostname, '@');
  }

  /** Conversely, a parsed command is its first word, a blank, the user, `@` and the host. */
  lemma ParseConnectInverse(command: string)
    requires ParseConnect(command).Ok?
    ensures var (user, hostname) := ParseConnect(command).value;
      var word := SplitOnce(command, ' ')[0];
      && ' ' !in word && '@' !in user
      && command == word + " " + user + "@" + hostname
  {
    var words := SplitOnce(command, ' ');
    var names := SplitOnce(words[1], '@');
    assert command == words[0] + [' '] + (names[0] + ['@'] + names[1]);
  }

  // ----- Argument prompts -----

  /** `f"{input}: "`, followed by `f"({help_info[input]}) "` when the input has help. */
  function PromptText(input: string, help: map<string, string>): (p: string)
    ensures StartsWith(p, input + ": ")
    ensures input in help ==> EndsWith(p, "(" + help[input] + ") ")
    ensures input !in help <==> p == input + ": "
  {
    var head := input + ": ";
    var p := head + (if input in help then "(" + help[input] + ") " else "");
    assert p[..|head|] == head;
    if input in help then
      var tail := "(" + help[input] + ") ";
      assert p[|p| - |tail|..] == tail;
      p
    else
      p
  }

  /** The prompts shown for `inputs`, in order. */
  function Prompts(inputs: seq<string>, help: map<string, string>): (ps: seq<string>)
    ensures |ps| == |inputs|
  {
    seq(|inputs|, i requires 0 <= i < |inputs| => PromptText(inputs[i], help))
  }

  /** The prompt loop of `select_and_launch_module`: one prompt per input, in order, and
      the answer taken as the argument.  `answers` are what the user types; when they
      run out the prompt raises `EOFError` at the prompt it is showing. */
  method CollectArgs(inputs: seq<string>, help: map<string, string>, answers: seq<string>)
    returns (prompts: seq<string>, r: Result<seq<string>, Exc>)
    ensures |inputs| <= |answers| ==>
      r == Ok(answers[..|inputs|]) && prompts == Prompts(inputs, help)
    ensures |answers| < |inputs| ==>
      r == Err(EndOfInput) && prompts == Prompts(inputs[..|answers| + 1], help)
  {
    prompts := [];
    var args := [];
    var i := 0;
    while i < |inputs|
      invariant 0 <= i <= |inputs| && i <= |answers|
      invariant |prompts| == i && |args| == i
      invariant forall k :: 0 <= k < i ==> prompts[k] == PromptText(inputs[k], help)
      invariant args == answers[..i]
    {
      prompts := prompts + [PromptText(inputs[i], help)];
      if i == |answers| {
        assert prompts == Prompts(inputs[..i + 1], help);
        return prompts, Err(EndOfInput);
      }
      args := args + [answers[i]];
      assert answers[..i + 1] == answers[..i] + [answers[i]];
      i := i + 1;
    }
    assert prompts == Prompts(inputs, help);
    r := Ok(args);
  }

  // ----- The shell -----

  class Engine {
    const host: Host
    /** The current SSH session, if any. */
    var sshManager: SshModuleManager?
    var moduleManager: ModuleManager

    ghost predicate Valid()
      reads this, host, moduleManager
    {
      && moduleManager.host == host
      && moduleManager.Valid()
      && (sshManager != null ==> sshManager.host == host)
    }

    /** `__init__`: no session, and a module manager that works locally. */
    constructor (host: Host)
      ensures Valid()
      ensures this.host == host && sshManager == null
      ensures moduleManager.sshManager == null && moduleManager.activeProcesses == map[]
    {
      this.host := host;
      sshManager := null;
      moduleManager := new ModuleManager(host, null);
    }

    /** `handle_ssh_connect`: a malformed command is reported (`Ok(false)`) and changes
        nothing.  Otherwise a new session to `/tmp/` replaces the current one before the
        login; an accepted login also replaces the module manager by one that works
        through the new session (forgetting the processes the old one tracked), a refused
        one raises and keeps the old module manager. */
    method HandleSshConnect(command: string, accepted: bool) returns (r: Result<bool, Exc>)
      requires Valid()
      modifies this`sshManager, this`moduleManager, host`trace
      ensures Valid()
      ensures ParseConnect(command).Err? ==>
        r == Ok(false) && sshManager == old(sshManager) && moduleManager == old(moduleManager)
        && host.trace == old(host.trace)
      ensures ParseConnect(command).Ok? ==>
        var (user, hostname) := ParseConnect(command).value;
        && sshManager != null && fresh(sshManager)
        && sshManager.hostname == hostname && sshManager.username == user
        && sshManager.remotePath == RemoteDir
        && sshManager.sshClient == Some(Client(accepted))
        && host.trace == old(host.trace) + [SshConnect(hostname, user, accepted)]
        && (accepted ==>
              && r == Ok(true) && fresh(moduleManager)
              && moduleManager.sshManager == sshManager && moduleManager.activeProcesses == map[])
        && (!accepted ==> r == Err(SshException) && moduleManager == old(moduleManager))
    {
      var parsed := ParseConnect(command);
      if parsed.Err? {
        return Ok(false);
      }
      var (user, hostname) := parsed.value;
      r := OpenSession(user, hostname, accepted);
    }

    /** The body of `handle_ssh_connect` once the command is parsed: a new session to
        `/tmp/` replaces the current one before the login; an accepted login also gets a
        new module manager bound to it, a refused one raises and keeps the old manager. */
    method OpenSession(user: string, hostname: string, accepted: bool) returns (r: Result<bool, Exc>)
      requires Valid()
      modifies this`sshManager, this`moduleManager, host`trace
      ensures Valid()
      ensures sshManager != null && fresh(sshManager)
      ensures sshManager.hostname == hostname && sshManager.username == user
      ensures sshManager.remotePath == RemoteDir
      ensures sshManager.sshClient == Some(Client(accepted))
      ensures host.trace == old(host.trace) + [SshConnect(hostname, user, accepted)]
      ensures accepted ==>
        && r == Ok(true) && fresh(moduleManager)
        && moduleManager.sshManager == sshManager && moduleManager.activeProcesses == map[]
      ensures !accepted ==> r == Err(SshException) && moduleManager == old(moduleManager)
    {
      var session := new SshModuleManager(host, hostname, user, RemoteDir);
      sshManager := session;
      var err := session.Connect(accepted);
      if err.Some? {
        return Err(err.value);
      }
      moduleManager := new ModuleManager(host, session);
      r := Ok(true);
    }

    /** `handle_ssh_disconnect` as written: the session is closed and dropped, but the
        module manager keeps it, so later launches and installs still go to the closed
        session. */
    method HandleSshDisconnect()
      requires Valid()
      modifies this`sshManager, sshManager, host`trace
      ensures Valid()
      ensures sshManager == null && moduleManager == old(moduleManager)
      ensures old(sshManager) == null ==> host.trace == old(host.trace)
      ensures old(sshManager) != null ==>
        old(sshManager).sshClient == None
        && host.trace == old(host.trace)
             + (if old(sshManager.sshClient).Some? then [SshClose(old(sshManager).hostname)] else [])
      ensures old(sshManager) != null && old(moduleManager.sshManager) == old(sshManager) ==>
        moduleManager.sshManager != null && !moduleManager.sshManager.Connected()
    {
      if sshManager != null {
        sshManager.Disconnect();
        sshManager := null;
      }
    }

    /** `handle_ssh_disconnect` as evidently intended: the module manager also forgets the
        session (`self.module_manager.ssh_manager = None`), so it works locally again and
        keeps tracking the processes it started. */
    method HandleSshDisconnectCorrected()
      requires Valid()
      modifies this`sshManager, sshManager, moduleManager`sshManager, host`trace
      ensures Valid()
      ensures sshManager == null && moduleManager == old(moduleManager)
      ensures moduleManager.activeProcesses == old(moduleManager.activeProcesses)
      ensures old(sshManager) == null ==>
        host.trace == old(host.trace) && moduleManager.sshManager == old(moduleManager.sshManager)
      ensures old(sshManager) != null ==>
        old(sshManager).sshClient == None
        && host.trace == old(host.trace)
             + (if old(sshManager.sshClient).Some? then [SshClose(old(sshManager).hostname)] else [])
        && moduleManager.sshManager == null
    {
      if sshManager != null {
        sshManager.Disconnect();
        sshManager := null;
        moduleManager.sshManager := null;
      }
    }

    /** `select_and_launch_module` once a module has been picked from the menu (which
        only offers installed modules): its inputs are read, each is prompted for with
        its help text, and the module is launched with the answers. */
    method LaunchWithInputs(name: string, answers: seq<string>, reply: Reply)
      returns (prompts: seq<string>, r: Result<bool, Exc>)
      requires Valid() && name in host.modules
      modifies moduleManager`activeProcesses, host`modules, host`logs, host`trace, host`nextPid
      ensures Valid()
      ensures var lines := Lines(old(host.modules)[name]);
        var inputs := ParseInputs(lines);
        |answers| < |inputs| ==>
          && prompts == Prompts(inputs[..|answers| + 1], ParseHelpInfo(lines))
          && r == Err(EndOfInput) && unchanged(host) && unchanged(moduleManager)
      ensures var lines := Lines(old(host.modules)[name]);
        var inputs := ParseInputs(lines);
        |inputs| <= |answers| ==>
          && prompts == Prompts(inputs, ParseHelpInfo(lines))
          && (r == Ok(false) <==> InterpreterOf(name).None?)
          && (InterpreterOf(name).Some? && moduleManager.sshManager == null ==>
                r == Ok(true) && name in moduleManager.activeProcesses)
    {
      var lines := Lines(host.modules[name]);
      var inputs := ReadInputs(lines);
      var help := ReadHelpInfo(lines);
      var args;
      prompts, args := CollectArgs(inputs, help, answers);
      if args.Err? {
        return prompts, Err(args.error);
      }
      r := moduleManager.LaunchModule(name, args.value, reply);
    }
  }

  /** A new shell on a host holding one module, after an accepted well-formed `connect`. */
  method ConnectedEngine(command: string, name: string, text: string) returns (engine: Engine)
    requires ParseConnect(command).Ok?
    ensures fresh(engine) && fresh(engine.host) && fresh(engine.moduleManager)
    ensures engine.Valid() && engine.host.modules == map[name := text]
    ensures engine.sshManager != null && fresh(engine.sshManager) && engine.sshManager.Connected()
    ensures engine.moduleManager.sshManager == engine.sshManager
  {
    var host := new Host(map[name := text], {}, {});
    engine := new Engine(host);
    var connected := engine.HandleSshConnect(command, true);
  }

  /** The defect of `handle_ssh_disconnect` on any run of this shape: connect (login
      accepted), disconnect, then launch an installed script — the launch still goes to
      the closed session and raises `AttributeError` instead of running the script
      locally. */
  method DisconnectThenLaunchAsWritten(command: string, name: string, text: string,
                                       args: seq<string>, reply: Reply)
    returns (r: Result<bool, Exc>)
    requires ParseConnect(command).Ok? && InterpreterOf(name).Some?
    ensures r == Err(AttributeError)
  {
    var engine := ConnectedEngine(command, name, text);
    engine.HandleSshDisconnect();
    r := engine.moduleManager.LaunchModule(name, args, reply);
  }

  /** The same runs with the corrected disconnect: the script is started locally. */
  method DisconnectThenLaunchCorrected(command: string, name: string, text: string,
                                       args: seq<string>, reply: Reply)
    returns (r: Result<bool, Exc>)
    requires ParseConnect(command).Ok? && InterpreterOf(name).Some?
    ensures r == Ok(true)
  {
    var engine := ConnectedEngine(command, name, text);
    engine.HandleSshDisconnectCorrected();
    r := engine.moduleManager.LaunchModule(name, args, reply);
  }
}
