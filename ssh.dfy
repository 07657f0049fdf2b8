/**
 * `SSHModuleManager`: one SSH session to a remote machine, used to copy a module over
 * and run it there.  The password prompt and the SSH and SCP libraries are not modelled:
 * whether the remote host accepts the login and what the remote command prints are
 * parameters, and every exchange with the remote host is an event on the host's trace.
 */
module Ssh {
  import opened Wrappers
  import opened Runtime
  import opened Commands
  import opened LineEndings

  class SshModuleManager {
    const host: Host
    const hostname: string
    const username: string
    /** The directory on the remote machine that modules are copied to and run from. */
    const remotePath: string
    var sshClient: Option<Client>

    constructor (host: Host, hostname: string, username: string, remotePath: string)
      ensures this.host == host && this.hostname == hostname
      ensures this.username == username && this.remotePath == remotePath
      ensures sshClient == None
    {
      this.host := host;
      this.hostname := hostname;
      this.username := username;
      this.remotePath := remotePath;
      sshClient := None;
    }

    /** The session can run commands: a client exists and its login was accepted. */
    predicate Connected()
      reads this
    {
      sshClient == Some(Client(true))
    }

    /** `connect`: make a client if there is none, then log in; a refused login raises. */
    method Connect(accepted: bool) returns (err: Option<Exc>)
      modifies this`sshClient, host`trace
      ensures sshClient == Some(Client(accepted))
      ensures host.trace == old(host.trace) + [SshConnect(hostname, username, accepted)]
      ensures err == if accepted then None else Some(SshException)
    {
      sshClient := Some(Client(accepted));
      host.trace := host.trace + [SshConnect(hostname, username, accepted)];
      err := if accepted then None else Some(SshException);
    }

    /** `disconnect`: close and drop the client, if there is one. */
    method Disconnect()
      modifies this`sshClient, host`trace
      ensures sshClient == None
      ensures host.trace == old(host.trace) + (if old(sshClient).Some? then [SshClose(hostname)] else [])
    {
      if sshClient.Some? {
        host.trace := host.trace + [SshClose(hostname)];
        sshClient := None;
      }
    }

    /** `convert_line_endings_to_unix`: rewrite the module file with every `\r\n` turned
        into `\n`; a missing file is reported and left alone. */
    method ConvertLineEndingsToUnix(name: string)
      modifies host`modules
      ensures host.modules == if name in old(host.modules)
        then old(host.modules)[name := ConvertCrlf(old(host.modules)[name])]
        else old(host.modules)
    {
      if name in host.modules {
        var content := host.modules[name];
        host.modules := host.modules[name := ConvertCrlf(content)];
      }
    }

    /** `transfer_file`: a missing file is reported; otherwise its line endings are
        converted and the file is copied to `remotePath`.  Without a connected client the
        copy fails and the failure is reported, not raised. */
    method TransferFile(name: string)
      modifies host`modules, host`trace
      ensures host.modules == if name in old(host.modules)
        then old(host.modules)[name := ConvertCrlf(old(host.modules)[name])]
        else old(host.modules)
      ensures host.trace == old(host.trace) +
        if name in old(host.modules) && Connected()
        then [ScpPut(ModulePath(name), remotePath, ConvertCrlf(old(host.modules)[name]))]
        else []
    {
      if name !in host.modules {
        return;
      }
      ConvertLineEndingsToUnix(name);
      if Connected() {
        host.trace := host.trace + [ScpPut(ModulePath(name), remotePath, host.modules[name])];
      }
    }

    /** `run_remote_script`: the command for the script's type, run on the remote machine,
        and its two output streams put together.  An unsupported script raises
        `ValueError`; a missing or unconnected client raises `AttributeError`. */
    method RunRemoteScript(name: string, args: seq<string>, reply: Reply) returns (r: Result<string, Exc>)
      modifies host`trace
      ensures RemoteCommand(remotePath, name, args).None? ==>
        r == Err(ValueError) && host.trace == old(host.trace)
      ensures RemoteCommand(remotePath, name, args).Some? && !Connected() ==>
        r == Err(AttributeError) && host.trace == old(host.trace)
      ensures RemoteCommand(remotePath, name, args).Some? && Connected() ==>
        r == Ok(CombineOutput(reply.stdout, reply.stderr))
        && host.trace == old(host.trace) + [RemoteExec(RemoteCommand(remotePath, name, args).value)]
    {
      var command := RemoteCommand(remotePath, name, args);
      if command.None? {
        return Err(ValueError);
      }
      if !Connected() {
        return Err(AttributeError);
      }
      host.trace := host.trace + [RemoteExec(command.value)];
      r := Ok(CombineOutput(reply.stdout, reply.stderr));
    }
  }
}
