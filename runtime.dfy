/**
 * What the command-line tool touches outside its own objects: the `modules/` directory,
 * the log files, the processes it starts and the remote machine.  All of it lives in one
 * `Host`, shared by the session objects, and every external effect is appended to the
 * host's trace as an `Event`.
 */
module Runtime {
  import opened Wrappers

  /** A started process, told apart by its process number. */
  datatype Handle = Handle(pid: nat)

  /** The exceptions the modelled code raises. */
  datatype Exc =
    | ValueError          // unsupported script type, malformed `connect` command
    | TypeError           // `open(None, ...)`: a remote launch without a `# Logfile:` line
    | AttributeError      // a call on a missing or unconnected SSH client
    | FileNotFoundError   // `open("", ...)`: an empty `# Logfile:` value
    | SshException        // authentication refused by the remote host
    | CalledProcessError  // a local `apt install` that failed
    | EndOfInput          // the user closed the prompt before answering every input

  /** An SSH client object: created by `connect`, usable once authenticated. */
  datatype Client = Client(connected: bool)

  /** What the remote command printed on its two streams. */
  datatype Reply = Reply(stdout: string, stderr: string)

  /** The external effects, in the order they happen. */
  datatype Event =
    | Spawn(handle: Handle, argv: seq<string>, logPath: Option<string>)
    | Terminate(handle: Handle)
    | Run(argv: seq<string>)
    | Shell(command: string)
    | SshConnect(hostname: string, username: string, accepted: bool)
    | SshClose(hostname: string)
    | ScpPut(localPath: string, remoteDir: string, content: string)
    | RemoteExec(command: string)

  /** `os.path.join("modules", name)`. */
  function ModulePath(name: string): string {
    "modules/" + name
  }

  /** The machine the tool runs on. */
  class Host {
    /** The files under `modules/`, by module name. */
    var modules: map<string, string>
    /** The log files, by path. */
    var logs: map<string, string>
    var trace: seq<Event>
    /** The process number the next started process gets. */
    var nextPid: nat
    /** The commands `shutil.which` finds. */
    const onPath: set<string>
    /** The packages whose `apt install` fails. */
    const brokenPackages: set<string>

    constructor (modules: map<string, string>, onPath: set<string>, brokenPackages: set<string>)
      ensures this.modules == modules && this.onPath == onPath
      ensures this.brokenPackages == brokenPackages
      ensures logs == map[] && trace == [] && nextPid == 0
    {
      this.modules := modules;
      this.onPath := onPath;
      this.brokenPackages := brokenPackages;
      logs := map[];
      trace := [];
      nextPid := 0;
    }
  }
}
