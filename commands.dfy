/**
 * How a module is run: the interpreter its file extension selects, the command line
 * built for a local or a remote run, and how the remote run's two output streams are
 * put together.
 */
module Commands {
  import opened Wrappers
  import opened PyStrings
  import opened Runtime

  /** The two kinds of module the tool can run. */
  datatype Interpreter = Bash | Python3

  /** `.sh` is checked first, then `.py`; anything else is unsupported. */
  function InterpreterOf(name: string): (r: Option<Interpreter>)
    ensures r == Some(Bash) <==> EndsWith(name, ".sh")
    ensures r == Some(Python3) <==> EndsWith(name, ".py")
    ensures r == None <==> !EndsWith(name, ".sh") && !EndsWith(name, ".py")
  {
    if EndsWith(name, ".sh") then Some(Bash)
    else if EndsWith(name, ".py") then
      assert !EndsWith(name, ".sh") by {
        assert name[|name| - 1] == 'y';
      }
      Some(Python3)
    else None
  }

  function Program(i: Interpreter): string {
    match i
    case Bash => "bash"
    case Python3 => "python3"
  }

  /** Appending a suffix fixes the interpreter. */
  lemma InterpreterOfSuffix(stem: string)
    ensures InterpreterOf(stem + ".sh") == Some(Bash)
    ensures InterpreterOf(stem + ".py") == Some(Python3)
  {
    assert (stem + ".sh")[|stem|..] == ".sh";
    assert (stem + ".py")[|stem|..] == ".py";
  }

  /** The check on the module path under `modules/` agrees with the check on the name. */
  lemma InterpreterOfModulePath(name: string)
    ensures InterpreterOf(ModulePath(name)) == InterpreterOf(name)
  {
    var p := ModulePath(name);
    assert p == "modules/" + name;
    if |name| >= 3 {
      assert p[|p| - 3..] == name[|name| - 3..];
    } else {
      assert !EndsWith(name, ".sh") && !EndsWith(name, ".py");
      // The last three characters of the path reach into "modules/", whose '/' or 's'
      // is never the '.' a suffix needs at that place.
      assert p[|p| - 3] == "modules/"[|name| + 5];
    }
  }

  /** `f"{program} {remote_path}/{script_name} " + ' '.join(args)`, or `ValueError`
      (here `None`) for an unsupported script. */
  function RemoteCommand(remotePath: string, name: string, args: seq<string>): (r: Option<string>)
    ensures r.None? <==> InterpreterOf(name).None?
  {
    match InterpreterOf(name)
    case None => None
    case Some(i) => Some(Program(i) + " " + remotePath + "/" + name + " " + Join(args, ' '))
  }

  /** `[program, module_path] + args`, or `None` (the launch returns `False`). */
  function LocalCommand(path: string, args: seq<string>): (r: Option<seq<string>>)
    ensures r.None? <==> InterpreterOf(path).None?
    ensures r.Some? ==> |r.value| == |args| + 2 && r.value[1] == path && r.value[2..] == args
    ensures r.Some? ==> r.value[0] == Program(InterpreterOf(path).value)
  {
    match InterpreterOf(path)
    case None => None
    case Some(i) => Some([Program(i), path] + args)
  }

  /** The local command for the module file `name` under `modules/`. */
  function ModuleCommand(name: string, args: seq<string>): (r: Option<seq<string>>)
    ensures r.None? <==> InterpreterOf(name).None?
    ensures r.Some? ==> |r.value| == |args| + 2 && r.value[1] == ModulePath(name) && r.value[2..] == args
    ensures r.Some? ==> r.value[0] == Program(InterpreterOf(name).value)
  {
    InterpreterOfModulePath(name);
    LocalCommand(ModulePath(name), args)
  }

  /** A local and a remote run of the same module use the same program. */
  lemma SameProgram(remotePath: string, name: string, args: seq<string>)
    ensures LocalCommand(ModulePath(name), args).Some? <==> RemoteCommand(remotePath, name, args).Some?
    ensures LocalCommand(ModulePath(name), args).Some? ==>
      StartsWith(RemoteCommand(remotePath, name, args).value,
                 LocalCommand(ModulePath(name), args).value[0] + " ")
  {
    InterpreterOfModulePath(name);
    var r := RemoteCommand(remotePath, name, args);
    if r.Some? {
      var p := Program(InterpreterOf(name).value);
      var rest := remotePath + "/" + name + " " + Join(args, ' ');
      assert r.value == (p + " ") + rest;
      assert r.value[..|p + " "|] == p + " ";
    }
  }

  /** Words free of the separator. */
  predicate Word(w: string) {
    ' ' !in w
  }

  /** Joining `[x, y] + rest` for a non-empty `rest`. */
  lemma JoinTwoThenRest(x: string, y: string, rest: seq<string>)
    requires rest != []
    ensures Join([x, y] + rest, ' ') == x + " " + y + " " + Join(rest, ' ')
  {
    var all := [x, y] + rest;
    assert all[1..] == [y] + rest;
    assert ([y] + rest)[1..] == rest;
  }

  /** Splitting the remote command at its blanks gives back the program, the script path
      and the arguments (an empty last word when there are no arguments), provided no part
      holds a blank itself. */
  lemma RemoteCommandWords(remotePath: string, name: string, args: seq<string>)
    requires InterpreterOf(name).Some?
    requires Word(remotePath) && Word(name) && forall k :: 0 <= k < |args| ==> Word(args[k])
    ensures Split(RemoteCommand(remotePath, name, args).value, ' ') ==
      [Program(InterpreterOf(name).value), remotePath + "/" + name]
      + (if args == [] then [""] else args)
  {
    var p := Program(InterpreterOf(name).value);
    var target := remotePath + "/" + name;
    var rest := if args == [] then [""] else args;
    assert Join(rest, ' ') == Join(args, ' ');
    JoinTwoThenRest(p, target, rest);
    assert RemoteCommand(remotePath, name, args).value == p + " " + target + " " + Join(rest, ' ');
    var parts := [p, target] + rest;
    assert ' ' !in target by {
      assert forall c :: c in target ==> c in remotePath || c == '/' || c in name;
    }
    assert p == "bash" || p == "python3";
    forall k | 0 <= k < |parts| ensures ' ' !in parts[k] {
      if k >= 2 {
        assert parts[k] == rest[k - 2];
      }
    }
    SplitJoin(parts, ' ');
  }

  /** `stdout.strip() + ("\n" + stderr.strip() if stderr.strip() else "")`. */
  function CombineOutput(out: string, err: string): string {
    Strip(out) + (if Strip(err) != "" then "\n" + Strip(err) else "")
  }

  /** The combined output is empty exactly when both streams are blank. */
  lemma CombineOutputEmpty(out: string, err: string)
    ensures CombineOutput(out, err) == "" <==> Strip(out) == "" && Strip(err) == ""
  {
  }

  /** The combined output starts with the stripped standard output and ends with the
      stripped error output. */
  lemma CombineOutputParts(out: string, err: string)
    ensures StartsWith(CombineOutput(out, err), Strip(out))
    ensures EndsWith(CombineOutput(out, err), Strip(err))
  {
    CombineOutputStarts(out, err);
    CombineOutputEnds(out, err);
  }

  lemma CombineOutputStarts(out: string, err: string)
    ensures StartsWith(CombineOutput(out, err), Strip(out))
  {
    var o := Strip(out);
    var tail := if Strip(err) != "" then "\n" + Strip(err) else "";
    assert CombineOutput(out, err) == o + tail;
    PrefixOfConcat(o, tail);
  }

  lemma CombineOutputEnds(out: string, err: string)
    ensures EndsWith(CombineOutput(out, err), Strip(err))
  {
    var o, e := Strip(out), Strip(err);
    if e != "" {
      assert CombineOutput(out, err) == (o + "\n") + e;
      SuffixOfConcat(o + "\n", e);
    }
  }

  lemma PrefixOfConcat(a: string, b: string)
    ensures StartsWith(a + b, a)
  {
    assert (a + b)[..|a|] == a;
  }

  lemma SuffixOfConcat(a: string, b: string)
    ensures EndsWith(a + b, b)
  {
    assert (a + b)[|a + b| - |b|..] == b;
  }

  /** When the standard output holds no line break, the first line break of the combined
      output separates the two streams again. */
  lemma CombineOutputSplits(out: string, err: string)
    requires '\n' !in Strip(out) && Strip(err) != ""
    ensures SplitOnce(CombineOutput(out, err), '\n') == [Strip(out), Strip(err)]
  {
    var o, e := Strip(out), Strip(err);
    assert CombineOutput(out, err) == o + ['\n'] + e;
    SplitOnceAt(o, e, '\n');
  }

  /** The combined output carries no surrounding blanks unless only the error stream
      printed something, when it starts with the separating line break. */
  lemma CombineOutputStripped(out: string, err: string)
    ensures Strip(out) != "" || Strip(err) == "" ==> Stripped(CombineOutput(out, err))
    ensures Strip(out) == "" && Strip(err) != "" ==> CombineOutput(out, err) == "\n" + Strip(err)
  {
    StripIsStripped(out);
    StripIsStripped(err);
    var o, e := Strip(out), Strip(err);
    var r := CombineOutput(out, err);
    if o != "" {
      assert r[0] == o[0];
      if e != "" {
        assert r[|r| - 1] == e[|e| - 1];
      }
    } else if e == "" {
      assert r == "";
    }
  }
}
