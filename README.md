# NMB-cli core, modelled in Dafny

NMB-cli is a small interactive shell. It fetches script "modules" (`.sh` and `.py` files)
from a repository, installs their dependencies, and launches them. A module runs locally,
or on a remote machine over SSH. Each module file describes itself in comment lines:

- `# Dependencies: a, b`
- `# Inputs: x, y`
- `# Help: x - text`
- `# Silent: true`
- `# Follow_log: true`
- `# Logfile: path`

This project models the part of `cli.py` that decides what the tool does, in five pieces.

**The descriptor parsers.** `parse_dependencies`, `parse_inputs`, `parse_help_info`,
`parse_silent_flag`, `parse_follow_log_flag` and `parse_logfile_path` are modelled as pure
functions over the file's lines (module `Descriptor`). Each has a loop method that scans the
lines and is proved equal to its function. Rendering a descriptor back to text and parsing
it again gives the same descriptor (`ParseRender`), for every descriptor the text format can
carry (`Renderable`): list items and the log path are non-empty, have no surrounding
whitespace, and hold no `:`; list items also hold no `,`; help keys are non-empty, have no
surrounding whitespace and hold no `-`; and help descriptions are non-empty and have no
surrounding whitespace. The lemmas beside it pin down how the markers and Python's `strip`,
`split`, `split(_, 1)` and `lower` behave on each line. Those string operations are in
module `PyStrings`.

A file is read as a sequence of lines, split by universal newlines, and the lines do not
keep their terminators. Every parser either tests a line's prefix or strips the value it
keeps, so a terminator never changes a result.

**The line-ending conversion.** This is the conversion applied before a file is copied
(module `LineEndings`).

**The commands.** These are the commands a module is run with, locally or remotely, and the
way remote output is combined (module `Commands`).

**The two manager classes.** `SSHModuleManager` is `Ssh.SshModuleManager` and `ModuleManager`
is `Modules.ModuleManager`. Both are classes over a `Runtime.Host`. The host holds:

- the module directory, as a map from file name to text;
- the log files;
- an append-only trace of the effects the program has on the outside world: processes
  started and terminated, commands run, SSH sessions, SCP copies and remote executions;
- the next process id, which the next started process receives;
- the programs on the path (what `shutil.which` finds), which stay fixed;
- the packages whose `apt install` fails, which also stay fixed.

**The `Engine` shell.** The shell's connect, disconnect and launch handlers are modelled in
module `Cli`.

### How outside effects are modelled

- **Python exceptions.** Those that can escape an operation are values of `Runtime.Exc`,
  returned in a `Result` or `Option`.
- **The SSH password prompt.** Whether the login is accepted is a parameter.
- **The remote command's output.** The two output streams are a `Reply` parameter.
- **The downloaded module text.** This is a parameter of `InstallModule`.
- **Typed answers.** What the user types at the input prompts is a sequence of answers; when
  the answers run out, the prompt raises `EOFError`.

## Model

| member | source | states |
|---|---|---|
| PyStrings.LStrip | cli.py:83 | the result is a suffix of the input; everything dropped is whitespace; the result does not start with whitespace |
| PyStrings.RStrip | cli.py:84 | the result is a prefix of the input; everything dropped is whitespace; the result does not end with whitespace |
| PyStrings.StripIsTrimmedSlice | cli.py:83-84 | `strip` returns a slice of its input with only whitespace outside it, and that slice has no whitespace at either end |
| PyStrings.StripPadded | cli.py:179 | a word that is already stripped survives `strip` after one blank is added at the front, or at both ends |
| PyStrings.StripIdempotent | cli.py:195 | stripping twice is the same as stripping once |
| PyStrings.Strip | cli.py:83-84 | `str.strip()`: characterised by `StripIsTrimmedSlice`, `StripPadded` and `StripIdempotent` |
| PyStrings.RStripKeepsPrefix | cli.py:170 | right-stripping `p + q` keeps `p` when `p` ends in a non-blank character |
| PyStrings.LowerIsTrue | cli.py:170 | `lower() == 'true'` holds exactly for the four-letter spellings of "true" in any case |
| PyStrings.Lower | cli.py:170 | `str.lower()` on ASCII letters: characterised by `LowerIsTrue` |
| PyStrings.Split | cli.py:179 | `split(sep)` gives at least one piece; no piece contains the separator; joining the pieces with it gives the input back |
| PyStrings.SplitMany | cli.py:170 | a split has two or more pieces exactly when the separator occurs |
| PyStrings.SplitAfterPrefix | cli.py:203 | splitting `p + sep + q` gives `p` followed by the pieces of `q` |
| PyStrings.SplitAddPrefix | cli.py:203 | a separator-free prefix joins the first piece and leaves the other pieces alone |
| PyStrings.SplitJoin | cli.py:203 | split undoes join for pieces that do not contain the separator |
| PyStrings.SplitOnce | cli.py:386-387 | `split(sep, 1)` gives one piece (the input) when the separator is absent; otherwise two pieces that rebuild the input around its first separator |
| PyStrings.SplitOnceAt | cli.py:155-156 | `split(sep, 1)` of `p + sep + q` is `[p, q]` when `p` has no separator |
| LineEndings.ConvertCrlfLength | cli.py:49 | `replace('\r\n', '\n')` shortens the text by one character per replaced pair |
| LineEndings.ConvertCrlfRemovesOnlyCarriageReturns | cli.py:49 | every character occurs as often as before, except the carriage return, which occurs once less per replaced pair |
| LineEndings.ConvertCrlfUnchangedIff | cli.py:49 | the text is unchanged exactly when it contains no `\r\n` pair |
| LineEndings.ConvertExpandRoundTrip | cli.py:49 | converting text that was expanded to `\r\n` endings restores it exactly |
| LineEndings.ConvertCrlfNotIdempotent | cli.py:49 | the conversion is not idempotent: one pass turns `"\r\r\n"` into `"\r\n"`, and a second pass turns that into `"\n"` |
| LineEndings.ConvertCrlf | cli.py:49 | `content.replace('\r\n', '\n')`: characterised by `ConvertCrlfLength`, `ConvertCrlfRemovesOnlyCarriageReturns`, `ConvertCrlfUnchangedIff` and `ConvertExpandRoundTrip` |
| Commands.InterpreterOf | cli.py:264-270 | `bash` exactly for `.sh` names, `python3` exactly for `.py` names, and no interpreter otherwise |
| Commands.InterpreterOfSuffix | cli.py:73-76 | every `.sh` name runs under `bash` and every `.py` name under `python3` |
| Commands.InterpreterOfModulePath | cli.py:255 | joining the module directory to a name does not change the file's type |
| Commands.RemoteCommand | cli.py:73-78 | there is a remote command exactly when the script type is supported |
| Commands.LocalCommand | cli.py:264-270 | the local argv exists exactly for supported types; it is the interpreter, then the path, then the arguments unchanged |
| Commands.ModuleCommand | cli.py:255-270 | the argv for an installed module: `bash` or `python3` by the name's suffix, then the module's path in the module directory, then the arguments; absent exactly for unsupported names |
| Commands.SameProgram | cli.py:73-76 | local and remote runs agree on whether the script runs and on the interpreter |
| Commands.RemoteCommandWords | cli.py:74-76 | for blank-free words, splitting the remote command line on blanks gives the interpreter, the remote script path and the arguments; with no arguments it ends in an empty word, from the trailing blank |
| Commands.CombineOutputEmpty | cli.py:83-86 | the combined output is empty exactly when both streams are blank |
| Commands.CombineOutputParts | cli.py:83-86 | the combined output starts with the stripped stdout and ends with the stripped stderr |
| Commands.CombineOutputSplits | cli.py:83-86 | when stdout is one line and stderr is not blank, splitting the combined output at its first newline gives the two streams back |
| Commands.CombineOutputStripped | cli.py:83-86 | the combined output has no surrounding whitespace, except for a leading newline when only stderr has text |
| Commands.CombineOutput | cli.py:83-86 | the combined output of a remote run: characterised by `CombineOutputEmpty`, `CombineOutputParts`, `CombineOutputSplits` and `CombineOutputStripped` |
| Descriptor.MarkersExclusive | cli.py:154-202 | no line starts with two different field markers |
| Descriptor.LineBreak | cli.py:153 | the first line terminator, if there is one, and no terminator before it |
| Descriptor.Lines | cli.py:153 | reading a file line by line gives lines without terminators; the lemmas below show that `\n`, `\r\n` and a lone `\r` each end exactly one line |
| Descriptor.LinesFirst | cli.py:153 | a newline ends exactly the first line |
| Descriptor.LinesFirstCrlf | cli.py:153 | a `\r\n` pair ends exactly the first line, as one terminator |
| Descriptor.LinesFirstCr | cli.py:153 | a carriage return not followed by a line feed ends exactly the first line |
| Descriptor.LinesUnlines | cli.py:153 | reading back lines written one per line gives the same lines |
| Descriptor.FirstMarkerLine | cli.py:176-180 | the index of the first line starting with the marker, or none when no line does |
| Descriptor.FirstMarkerLineIs | cli.py:168-170 | the first marked line is unique |
| Descriptor.StripMarkerLine | cli.py:170 | stripping a marked line keeps the marker and right-strips the rest |
| Descriptor.MarkerValueIs | cli.py:170 | `line.strip().split(':')[1]` is the text after the marker, right-stripped, up to its first colon |
| Descriptor.MarkerValueWhole | cli.py:195 | a colon-free value is read whole, minus trailing blanks |
| Descriptor.MarkerValueStopsAtColon | cli.py:195 | a value containing a colon is cut at that colon |
| Descriptor.MarkerValue | cli.py:170 | `line.strip().split(':')[1]` on a marked line: characterised by `MarkerValueIs`, `MarkerValueWhole`, `MarkerValueStopsAtColon` and `MarkerValueExact` |
| Descriptor.ParseList | cli.py:173-181 | the list is empty when no line carries the marker, and otherwise is read from the first such line only |
| Descriptor.ParseDependencies | cli.py:173-181 | dependencies come from the first `# Dependencies:` line; without such a line there are none |
| Descriptor.ParseInputs | cli.py:198-205 | inputs come from the first `# Inputs:` line; without such a line there are none |
| Descriptor.ParseFlag | cli.py:184-189 | the flag is false without a marker line; otherwise it is true exactly when the first marked line's value is "true" in any case |
| Descriptor.ParseSilentFlag | cli.py:184-189 | `# Silent:` follows the flag rule above |
| Descriptor.ParseFollowLogFlag | cli.py:166-171 | `# Follow_log:` follows the flag rule above |
| Descriptor.ParseLogfilePath | cli.py:191-196 | absent exactly when no `# Logfile:` line exists; otherwise the stripped value of the first one |
| Descriptor.HelpEntryOf | cli.py:154-162 | a help line with a hyphen gives (stripped key, stripped description); one without gives "No description available" |
| Descriptor.HelpEntry | cli.py:155-162 | the key and description of one `# Help:` line: characterised by `HelpEntryOf` and `HelpLineValue` |
| Descriptor.ParseHelpInfo | cli.py:150-163 | `parse_help_info`: characterised by `ParseHelpInfoStep`, `EntryMapKeys`, `EntryMapLast` and `ParseRenderHelp` |
| Descriptor.ParseHelpInfoStep | cli.py:153-162 | each further line is a help line that adds or overwrites its key, or a line that changes nothing |
| Descriptor.EntryMapKeys | cli.py:159-162 | a key is in the help map exactly when some help line names it |
| Descriptor.EntryMapLast | cli.py:159-162 | a key's description comes from its last help line |
| Descriptor.HelpEntriesAppend | cli.py:153-162 | the help lines of two parts of a file are those of each part, in order |
| Descriptor.NoHelpEntries | cli.py:154 | a file without `# Help:` lines has an empty help map |
| Descriptor.FieldsTagged | cli.py:173-205 | each rendered field line starts with its own marker |
| Descriptor.FirstTagged | cli.py:176-180 | the first line tagged with a field is the first line the parser finds for that field |
| Descriptor.Untagged | cli.py:176-181 | a field with no rendered line is absent for the parser |
| Descriptor.ListLineValue | cli.py:179 | a rendered list line parses back to its items |
| Descriptor.ListPartsStrip | cli.py:179 | splitting a rendered list at commas and stripping gives the items |
| Descriptor.WordLineValue | cli.py:195 | a rendered word parses back to itself |
| Descriptor.FlagLineValue | cli.py:188 | a rendered flag word is read as true exactly when it lower-cases to "true" |
| Descriptor.PathLineValue | cli.py:195 | a rendered log path parses back to itself |
| Descriptor.FlagWordValue | cli.py:170 | the rendered flag words read back as the flag |
| Descriptor.HelpLineValue | cli.py:154-159 | a rendered help line parses back to its key and description |
| Descriptor.OneHelpLine | cli.py:154-159 | one rendered help line gives exactly its entry |
| Descriptor.RenderHelpEntries | cli.py:153-162 | a rendered help block gives back its key–description pairs, in order |
| Descriptor.RenderHelpMarked | cli.py:154 | every rendered help line is recognised as a help line |
| Descriptor.EntryMapPairs | cli.py:159-162 | the help map of the rendered pairs is the help map restricted to the rendered keys |
| Descriptor.FieldsNotHelp | cli.py:154 | no field line is mistaken for a help line |
| Descriptor.HelpAfterOthers | cli.py:153-162 | lines that are not help lines contribute no help |
| Descriptor.RenderedHelpEntries | cli.py:150-163 | a whole rendered descriptor gives exactly its help pairs |
| Descriptor.ParseRenderHelp | cli.py:150-163 | parsing the help of a rendered descriptor gives its help map back |
| Descriptor.RenderAllTagged | cli.py:150-205 | every line of a rendered descriptor starts with its field's marker |
| Descriptor.FieldTagsAt | cli.py:173-205 | each field has at most one rendered line, at a known index |
| Descriptor.RenderFirst | cli.py:176-180 | a rendered field's line is the first line carrying its marker |
| Descriptor.RenderAbsent | cli.py:176-181 | an unrendered field has no marker line |
| Descriptor.ParseListAt | cli.py:173-181 | a list parses back from its first marked line |
| Descriptor.ParseFlagAt | cli.py:184-189 | a flag parses back from its first marked line |
| Descriptor.ParseRenderDependencies | cli.py:173-181 | dependencies survive rendering and parsing |
| Descriptor.ParseRenderInputs | cli.py:198-205 | inputs survive rendering and parsing |
| Descriptor.ParseRenderSilent | cli.py:184-189 | the silent flag survives rendering and parsing |
| Descriptor.ParseRenderFollowLog | cli.py:166-171 | the follow-log flag survives rendering and parsing |
| Descriptor.ParseRenderLogfile | cli.py:191-196 | the log path survives rendering and parsing |
| Descriptor.ParseRender | cli.py:150-205 | parsing a rendered descriptor gives the same descriptor, for every renderable descriptor |
| Descriptor.ParseDescriptor | cli.py:150-205 | all six parsers applied to one file; `ParseRender` shows it inverts rendering |
| Descriptor.ScanForMarker | cli.py:176-180 | the scan loop stops at the first marked line, or finds none |
| Descriptor.ReadList | cli.py:173-181 | the list scan loop computes the list parse |
| Descriptor.ReadDependencies | cli.py:173-181 | the loop reads the dependencies |
| Descriptor.ReadInputs | cli.py:198-205 | the loop reads the inputs |
| Descriptor.StripAll | cli.py:205 | the strip comprehension strips every token |
| Descriptor.ReadFlag | cli.py:184-189 | the flag scan loop computes the flag parse |
| Descriptor.ReadSilentFlag | cli.py:184-189 | the loop reads `# Silent:` |
| Descriptor.ReadFollowLogFlag | cli.py:166-171 | the loop reads `# Follow_log:` |
| Descriptor.ReadLogfilePath | cli.py:191-196 | the loop reads `# Logfile:` |
| Descriptor.ReadHelpInfo | cli.py:150-163 | the help loop builds the help map |
| Ssh.SshModuleManager.constructor | cli.py:25-29 | a new session stores its host, user and remote path, and has no client |
| Ssh.SshModuleManager.Connect | cli.py:31-38 | a client is created; the login outcome is recorded; a refused login raises |
| Ssh.SshModuleManager.Disconnect | cli.py:40-43 | an open client is closed and dropped; without one nothing happens |
| Ssh.SshModuleManager.ConvertLineEndingsToUnix | cli.py:45-53 | the file's text is converted in place; a missing file is left alone |
| Ssh.SshModuleManager.TransferFile | cli.py:55-69 | an existing file is converted and copied when connected; a failed copy is only reported |
| Ssh.SshModuleManager.RunRemoteScript | cli.py:71-87 | unsupported type: ValueError; no client: AttributeError; otherwise one remote execution returning the combined output |
| Modules.RemoteInstallsEach | cli.py:211-214 | the k-th remote install runs `sudo apt install -y` on the k-th dependency |
| Modules.RemoteInstallsStep | cli.py:208-216 | the remote installs of a suffix are its first install followed by the rest |
| Modules.RemoteInstalls | cli.py:208-216 | one remote install per dependency, in order: its own length clause with `RemoteInstallsEach` |
| Modules.Missing | cli.py:219 | exactly the dependencies that are not on the path |
| Modules.Installs | cli.py:221 | one `sudo apt install -y` run per missing dependency, in order |
| Modules.LocalInstallsAllSucceed | cli.py:217-223 | when no missing package fails, every missing dependency is installed, in order, and nothing is raised |
| Modules.LocalInstallsStopAtFailure | cli.py:217-223 | the first failing install raises CalledProcessError, and no later dependency is tried |
| Modules.LocalInstallsOnlyMissing | cli.py:217-223 | only missing dependencies are installed; an error occurs exactly when some missing one fails |
| Modules.LocalInstallsStep | cli.py:208-223 | one loop iteration of the local install |
| Modules.LocalInstalls | cli.py:217-223 | the local install loop's events and error: characterised by `LocalInstallsAllSucceed`, `LocalInstallsStopAtFailure` and `LocalInstallsOnlyMissing` |
| Modules.OpenForAppend | cli.py:284 | opening for append creates the file when absent and keeps the existing text |
| Modules.SaveResult | cli.py:279-280 | saving succeeds exactly for a named log file; a missing path is TypeError; the empty path is FileNotFoundError |
| Modules.SaveOutput | cli.py:279-280 | when the log file is named, its path holds exactly the output and every other path keeps its text; when it is not, no path is added or changed |
| Modules.FollowCommand | cli.py:296-298 | the `tmux` command that follows the log; `LaunchModule` states when it runs: a local launch with `# Follow_log:` set and a non-empty log path |
| Modules.Redirect | cli.py:283-287 | where a local launch sends its output: the log file exactly when the module is silent and names one, as `LaunchModule` states |
| Modules.ModuleManager.constructor | cli.py:101-108 | a new manager has no processes and keeps the given session |
| Modules.ModuleManager.StopModule | cli.py:318-325 | a tracked module is terminated and forgotten; otherwise nothing changes |
| Modules.ModuleManager.RemoveModule | cli.py:327-335 | returns true exactly when the file existed; afterwards the file is gone |
| Modules.ModuleManager.LaunchModule | cli.py:254-301 | missing or unsupported: false, and nothing changes; with a session: two conversions and copies, one remote run, and the output saved to the log (or the error raised); locally: a spawn tracked under the name, the log opened when silent, and the tmux follow window |
| Modules.ModuleManager.LaunchSupported | cli.py:260-299 | an installed module with a supported suffix: with a session, the copies, remote run and log write; locally, the tracked spawn, log opening and follow window |
| Modules.ModuleManager.LaunchRemotely | cli.py:272-280 | the remote branch's copies, remote run and log write |
| Modules.ModuleManager.TransferTwice | cli.py:274-276 | the file is converted twice, and when connected each converted text is copied, the second copy carrying the twice-converted text |
| Modules.ModuleManager.LaunchLocally | cli.py:281-299 | the local branch's spawn, redirection, tracking and follow window |
| Modules.ModuleManager.InstallDependencies | cli.py:207-223 | with a connected session, one remote install per dependency; with an unconnected one, AttributeError at the first dependency; without one, the local install |
| Modules.ModuleManager.InstallRemotely | cli.py:209-216 | the remote install loop |
| Modules.ModuleManager.InstallLocally | cli.py:217-223 | the local install loop |
| Modules.ModuleManager.InstallModule | cli.py:226-231 | a failed download changes nothing; otherwise the file is stored and the dependencies it declares are installed |
| Modules.ModuleManager.InstallDeclared | cli.py:229-230 | the dependencies the stored text declares are installed remotely, locally or not at all (AttributeError), by the session state |
| Cli.ParseConnect | cli.py:384-397 | fails with ValueError exactly when the command has no blank, or no `@` after its first blank |
| Cli.ParseConnectRoundTrip | cli.py:386-387 | `connect user@host` gives back the user and the host |
| Cli.ParseConnectInverse | cli.py:386-387 | a command that parses is rebuilt from its word, user and host |
| Cli.PromptText | cli.py:456-458 | the prompt is the input name with a colon, followed by the help text in parentheses exactly when there is help for that input |
| Cli.CollectArgs | cli.py:453-460 | the answers, one per input and in order, or EOFError at the first unanswered prompt |
| Cli.Engine.constructor | cli.py:345-353 | a new shell has no session and a manager without one |
| Cli.Engine.HandleSshConnect | cli.py:384-397 | a malformed command is reported and changes nothing; otherwise a new session is opened; an accepted login also gets a new manager bound to the session; a refused login raises and keeps the old manager |
| Cli.Engine.OpenSession | cli.py:388-394 | a fresh session to `/tmp/` with the login recorded; an accepted login gets a fresh manager bound to it with no processes, a refused one raises and keeps the old manager |
| Cli.Engine.HandleSshDisconnect | cli.py:466-473 | the session is closed and dropped, but the manager still holds it, now unconnected |
| Cli.Engine.HandleSshDisconnectCorrected | cli.py:466-473 | the session is closed and dropped, and the same manager forgets it too; the manager's process table is kept, so modules started before can still be stopped |
| Cli.Engine.LaunchWithInputs | cli.py:449-464 | prompts for each input with its help; EOFError changes nothing; returns false exactly for unsupported modules; a local launch tracks the module |
| Cli.ConnectedEngine | cli.py:384-397 | a fresh shell after an accepted `connect` has a connected session shared with its manager |
| Cli.DisconnectThenLaunchAsWritten | cli.py:466-473 | connect, then disconnect, then launch raises AttributeError |
| Cli.DisconnectThenLaunchCorrected | cli.py:466-473 | with the corrected disconnect, the same run launches the module locally |

## Left out

- **Fetching from the repository** (`fetch_modules`, `download_module`, cli.py:116-148): these use HTTP. `InstallModule` takes the downloaded text, or its absence, as a parameter.
- **The interactive interface:** the dialogs, menus and completion, `show_and_select_modules`, `select_and_remove_module` and `select_and_stop_module`. Also left out is the `run` loop (cli.py:505-555) with its command dispatch and its guard that a connect command contains a blank and an `@`. `LaunchWithInputs` starts after the menu choice and requires an installed name, as the menu offers only installed names.
- **`list_installed_modules` and `display_installed_modules`:** the order of a directory listing belongs to the file system.
- **Printed messages:** `print_output`, `print_error`, `display_help` and `read_log`; no operation's result depends on them.
- **Other unmodelled members:** `retrieve_file`, `__enter__`/`__exit__` and `setup_directories`. The shell never calls these on the paths modelled.
- **UTF-8 decoding and encoding:** text is modelled as characters, so a conversion that fails on undecodable bytes is not modelled.
- **Network failures:** failures of SCP or of the network other than a missing or unconnected client are not modelled. paramiko's host-key policy is not modelled either.
- **The password:** `getpass` is not modelled; whether the login is accepted is a parameter.
- **Processes and the terminal:** starting a process, starting `tmux` and terminating a process are recorded in the trace, not executed. A `Popen` that fails is not modelled: every spawn succeeds.
- `Runtime.Host`: the set of programs on the path is fixed, so installing a package does not put it on the path for a later dependency in the same loop.
- `Modules.ModuleManager.InstallDependencies`: the source checks the session once per dependency; the model checks it once, before the loop, because nothing in the loop can change it.
- `Modules.OpenForAppend`, `Modules.SaveResult` and `Modules.SaveOutput`: failures of `open` other than a missing or empty path are not modelled. A path in a missing directory, or one without write permission, is written successfully in the model.
- `PyStrings.Lower`: only ASCII case is folded; Python also lower-cases other letters, but only the comparison with "true" matters here.
- `Cli.Engine.LaunchWithInputs`: states the prompts and the outcome; the launch's full effect on the host is stated by `Modules.ModuleManager.LaunchModule`, which it calls.
- **`os.path.join`:** modelled as plain concatenation under the module directory, which is what it does for the plain file names used.

## Findings

| source | as written | input that shows it | evidently intended | confidence | as-written member | corrected member |
|---|---|---|---|---|---|---|
| cli.py:466-473 | `handle_ssh_disconnect` drops the shell's session but leaves it in `module_manager.ssh_manager`. `launch_module` (cli.py:272) still takes the remote branch, and `run_remote_script` calls `exec_command` on a client that is now `None` (cli.py:80). | `connect u@h` (login accepted), then `disconnect`, then `launch` of an installed `.sh` module: AttributeError, and the module does not run | after a disconnect, the module manager forgets the session too (`self.module_manager.ssh_manager = None`), so modules are launched and installed locally and the running ones stay tracked | not executed | Cli.DisconnectThenLaunchAsWritten | Cli.DisconnectThenLaunchCorrected |
