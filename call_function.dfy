/** `call_function(function_call_part)`: route a tool call the model asked
    for to one of the four tools, always inside the fixed root
    `./calculator`, and wrap what comes back. */
module CallFunction {
  import opened Text
  import opened Paths
  import opened FileTree
  import opened Values
  import GetFilesInfo
  import GetFileContent
  import WriteFile
  import RunPython

  /** The keyword arguments of a call, by name. */
  type Args = map<string, Value>

  const Root: string := "./calculator"
  const WorkingDirectory: string := "working_directory"

  datatype Tool = FilesInfoTool | FileContentTool | RunPythonTool | WriteFileTool

  /** The dispatch table: the four tool names and nothing else. */
  function Lookup(name: string): Option<Tool> {
    if name == "get_files_info" then Some(FilesInfoTool)
    else if name == "get_file_content" then Some(FileContentTool)
    else if name == "run_python_file" then Some(RunPythonTool)
    else if name == "write_file" then Some(WriteFileTool)
    else None
  }

  function Registry(): set<string> {
    {"get_files_info", "get_file_content", "run_python_file", "write_file"}
  }

  /** `{**args, "working_directory": "./calculator"}`. */
  function Merge(args: Args): Args {
    args[WorkingDirectory := Str(Root)]
  }

  /** Each tool's parameters, in declaration order, and those without a default. */
  function Params(tool: Tool): seq<string> {
    match tool
    case FilesInfoTool => [WorkingDirectory, "directory"]
    case FileContentTool => [WorkingDirectory, "file_path"]
    case RunPythonTool => [WorkingDirectory, "file_path", "args"]
    case WriteFileTool => [WorkingDirectory, "file_path", "content"]
  }

  function Required(tool: Tool): (required: seq<string>)
    ensures forall x :: x in required ==> x in Params(tool)
  {
    match tool
    case FilesInfoTool => [WorkingDirectory]
    case FileContentTool => [WorkingDirectory, "file_path"]
    case RunPythonTool => [WorkingDirectory, "file_path"]
    case WriteFileTool => [WorkingDirectory, "file_path", "content"]
  }

  /** The required parameters not supplied, in declaration order. */
  function Missing(required: seq<string>, kw: Args): (m: seq<string>)
    ensures forall x :: x in m <==> x in required && x !in kw
    decreases |required|
  {
    if required == [] then []
    else (if required[0] in kw then [] else [required[0]]) + Missing(required[1..], kw)
  }

  /** The TypeError a call raises before the tool's own error handling:
      keywords the tool does not take, required ones not given, or a path
      argument that is not a string (it reaches `os.path.join` outside the
      `try`). */
  datatype CallError =
    | UnexpectedKeywords(keywords: set<string>)
    | MissingArguments(names: seq<string>)
    | NotAString(param: string, typeName: string)

  /** A tool call with its arguments bound to the tool's parameters. */
  datatype Call =
    | ListDir(wd: string, directory: string)
    | Read(wd: string, filePath: string)
    | Run(wd: string, filePath: string, args: Value)
    | Write(wd: string, filePath: string, content: Value)

  datatype Binding = Bound(call: Call) | Raise(error: CallError)

  /** A string argument, or the TypeError for it. */
  function PathArg(kw: Args, param: string, default: Value): Checked<string> {
    var v := if param in kw then kw[param] else default;
    if v.Str? then Ok(v.s) else Err(NotAString(param, TypeName(v)))
  }

  datatype Checked<T> = Ok(value: T) | Err(error: CallError)

  /** Python's binding of the keyword arguments `kw` to the tool, then the
      string checks on the paths, in the order the tool uses them. */
  function Bind(tool: Tool, kw: Args): Binding {
    var unexpected := set k | k in kw && k !in Params(tool);
    var missing := Missing(Required(tool), kw);
    if unexpected != {} then Raise(UnexpectedKeywords(unexpected))
    else if missing != [] then Raise(MissingArguments(missing))
    else BindPaths(tool, kw)
  }

  /** The string checks on the path arguments, once the keywords fit. */
  function BindPaths(tool: Tool, kw: Args): Binding
    requires Missing(Required(tool), kw) == []
  {
    assert forall x :: x in Required(tool) ==> x in kw;
    match PathArg(kw, WorkingDirectory, Str(Root))
    case Err(e) => Raise(e)
    case Ok(wd) =>
      match tool
      case FilesInfoTool =>
        (match PathArg(kw, "directory", Str("."))
         case Err(e) => Raise(e)
         case Ok(d) => Bound(ListDir(wd, d)))
      case FileContentTool =>
        (match PathArg(kw, "file_path", Str(""))
         case Err(e) => Raise(e)
         case Ok(p) => Bound(Read(wd, p)))
      case RunPythonTool =>
        (match PathArg(kw, "file_path", Str(""))
         case Err(e) => Raise(e)
         case Ok(p) => Bound(Run(wd, p, if "args" in kw then kw["args"] else StrList([]))))
      case WriteFileTool =>
        (match PathArg(kw, "file_path", Str(""))
         case Err(e) => Raise(e)
         case Ok(p) => Bound(Write(wd, p, kw["content"])))
  }

  /** What a bound call gave each parameter. */
  function ArgOf(call: Call, param: string): Option<Value> {
    if param == WorkingDirectory then Some(Str(call.wd))
    else match call
      case ListDir(_, d) => if param == "directory" then Some(Str(d)) else None
      case Read(_, p) => if param == "file_path" then Some(Str(p)) else None
      case Run(_, p, a) =>
        if param == "file_path" then Some(Str(p)) else if param == "args" then Some(a) else None
      case Write(_, p, c) =>
        if param == "file_path" then Some(Str(p)) else if param == "content" then Some(c) else None
  }

  /** What the environment decides for a call: the process's current
      directory, what the OS reports while listing (the names in order,
      each directory's own size), reading and writing, and what running a
      command produces. */
  datatype Env = Env(
    cwd: Cwd,
    listing: seq<string>, dirSize: Segments -> nat, listFault: Option<string>,
    maxChars: GetFileContent.Cap, readFault: Option<string>,
    writeFault: Option<string>,
    run: RunPython.Runner)

  /** The new filesystem and the string a bound call returns. */
  function Invoke(t: Tree, env: Env, call: Call): (Tree, string) {
    match call
    case ListDir(wd, d) =>
      (t, GetFilesInfo.FilesInfo(t, env.cwd, wd, d, env.listing, env.dirSize, env.listFault))
    case Read(wd, p) =>
      (t, GetFileContent.FileContent(t, env.cwd, wd, p, env.maxChars, env.readFault))
    case Run(wd, p, a) =>
      RunPython.RunResult(t, env.cwd, wd, p, a, env.run)
    case Write(wd, p, c) =>
      WriteFile.WriteResult(t, env.cwd, wd, p, c, env.writeFault)
  }

  /** The function response: the tool name, and the one key of its body
      ("result" or "error") with its text. */
  datatype Response = Response(name: string, key: string, value: string)

  /** A response, or the TypeError that escaped from the call. */
  datatype Outcome = Responded(response: Response) | Raised(error: CallError)

  function Dispatch(t: Tree, env: Env, name: string, args: Args): (Tree, Outcome) {
    match Lookup(name)
    case None => (t, Responded(Response(name, "error", "Unknown function: " + name)))
    case Some(tool) =>
      match Bind(tool, Merge(args))
      case Raise(e) => (t, Raised(e))
      case Bound(call) =>
        var (t', s) := Invoke(t, env, call);
        (t', Responded(Response(name, "result", s)))
  }

  /** The dispatcher over the filesystem object, using the tools' own
      methods where they have one. */
  method CallFunction(disk: WriteFile.Disk, env: Env, name: string, args: Args) returns (out: Outcome)
    requires disk.Valid()
    modifies disk
    ensures disk.Valid()
    ensures (disk.tree, out) == Dispatch(old(disk.tree), env, name, args)
  {
    var tool := Lookup(name);
    if tool.None? {
      return Responded(Response(name, "error", "Unknown function: " + name));
    }
    var binding := Bind(tool.value, Merge(args));
    if binding.Raise? {
      return Raised(binding.error);
    }
    var result := Perform(disk, env, binding.call);
    out := Responded(Response(name, "result", result));
  }

  /** Run a bound call: `write_file` through the filesystem object, the
      others on its current contents. */
  method Perform(disk: WriteFile.Disk, env: Env, call: Call) returns (result: string)
    requires disk.Valid()
    modifies disk
    ensures disk.Valid()
    ensures (disk.tree, result) == Invoke(old(disk.tree), env, call)
  {
    match call {
      case ListDir(wd, d) =>
        result := GetFilesInfo.ListFiles(disk.tree, env.cwd, wd, d, env.listing, env.dirSize, env.listFault);
      case Read(wd, p) =>
        result := GetFileContent.FileContent(disk.tree, env.cwd, wd, p, env.maxChars, env.readFault);
      case Run(wd, p, a) =>
        var after;
        after, result := RunPython.RunPythonFile(disk.tree, env.cwd, wd, p, a, env.run);
        RunPython.ScriptEffect(disk.tree, env.cwd, wd, p, a, env.run);
        disk.tree := after;
      case Write(wd, p, c) =>
        result := disk.WriteFile(env.cwd, wd, p, c, env.writeFault);
    }
  }

  // ---------------------------------------------------------------------
  // Properties

  /** The table knows exactly the four tool names. */
  lemma RegistryExact(name: string)
    ensures Lookup(name).Some? <==> name in Registry()
  {
  }

  /** An unknown name is answered with the "error" key and no tool runs:
      the filesystem stays as it was, whatever the environment. */
  lemma UnknownFunction(t: Tree, env1: Env, env2: Env, name: string, args: Args)
    requires Lookup(name).None?
    ensures Dispatch(t, env1, name, args) == (t, Responded(Response(name, "error", "Unknown function: " + name)))
    ensures Dispatch(t, env1, name, args) == Dispatch(t, env2, name, args)
  {
  }

  /** The merge puts the fixed root in, over any caller value, and keeps
      every other argument as it was. */
  lemma MergeInjectsRoot(args: Args)
    ensures Merge(args)[WorkingDirectory] == Str(Root)
    ensures Merge(args).Keys == args.Keys + {WorkingDirectory}
    ensures forall k :: k in args && k != WorkingDirectory ==> Merge(args)[k] == args[k]
  {
  }

  /** A bound call runs in the fixed root, whatever `working_directory` the
      caller sent. */
  lemma BoundInRoot(tool: Tool, args: Args)
    requires Bind(tool, Merge(args)).Bound?
    ensures Bind(tool, Merge(args)).call.wd == Root
  {
  }

  /** Every other argument reaches the tool unchanged, and parameters not
      given take the tool's defaults (`"."` for the listing, `[]` for the
      run arguments). */
  lemma PassThrough(tool: Tool, args: Args, p: string)
    requires Bind(tool, Merge(args)).Bound?
    requires p != WorkingDirectory
    ensures p in args ==> p in Params(tool) && ArgOf(Bind(tool, Merge(args)).call, p) == Some(args[p])
    ensures p !in args && p in Params(tool) ==>
      ArgOf(Bind(tool, Merge(args)).call, p) == Some(if p == "directory" then Str(".") else StrList([]))
  {
    MergeInjectsRoot(args);
    var kw := Merge(args);
    BoundKeywordsKnown(tool, kw);
    BoundPathArgs(tool, kw, p);
    if p !in args && p in Params(tool) {
      assert p !in kw;
      assert p !in Required(tool) by {
        assert p !in Missing(Required(tool), kw);
      }
    }
  }

  /** Each parameter of a bound call holds its keyword's value, or, when not
      given, its default. */
  lemma BoundPathArgs(tool: Tool, kw: Args, p: string)
    requires Missing(Required(tool), kw) == [] && BindPaths(tool, kw).Bound?
    requires p != WorkingDirectory
    ensures p in kw && p in Params(tool) ==> ArgOf(BindPaths(tool, kw).call, p) == Some(kw[p])
    ensures p !in kw && p in Params(tool) && p !in Required(tool) ==>
      ArgOf(BindPaths(tool, kw).call, p) == Some(if p == "directory" then Str(".") else StrList([]))
  {
    assert forall x :: x in Required(tool) ==> x in kw;
  }

  /** A call that binds names only parameters the tool has. */
  lemma BoundKeywordsKnown(tool: Tool, kw: Args)
    requires Bind(tool, kw).Bound?
    ensures forall k :: k in kw ==> k in Params(tool)
  {
    var unexpected := set k | k in kw && k !in Params(tool);
    assert unexpected == {};
    forall k | k in kw ensures k in Params(tool) {
      assert k !in unexpected;
    }
  }

  /** A caller argument the tool does not take makes the call raise, and a
      missing required one does too; `working_directory` is never the
      culprit. */
  lemma BindingErrors(tool: Tool, args: Args)
    ensures (exists k :: k in args && k !in Params(tool))
      <==> Bind(tool, Merge(args)).Raise? && Bind(tool, Merge(args)).error.UnexpectedKeywords?
    ensures Bind(tool, Merge(args)).Raise? && Bind(tool, Merge(args)).error.UnexpectedKeywords? ==>
      WorkingDirectory !in Bind(tool, Merge(args)).error.keywords
    ensures Bind(tool, Merge(args)).Raise? && Bind(tool, Merge(args)).error.MissingArguments? ==>
      WorkingDirectory !in Bind(tool, Merge(args)).error.names
    ensures Bind(tool, Merge(args)).Raise? ==>
      !(Bind(tool, Merge(args)).error.NotAString? && Bind(tool, Merge(args)).error.param == WorkingDirectory)
  {
    MergeInjectsRoot(args);
    var kw := Merge(args);
    var unexpected := set k | k in kw && k !in Params(tool);
    if exists k :: k in args && k !in Params(tool) {
      var k :| k in args && k !in Params(tool);
      assert k in unexpected;
    }
    if unexpected != {} {
      var k :| k in unexpected;
      assert k in args;
    }
  }

  /** A known tool's string, even an "Error: ..." one, comes back verbatim
      under the "result" key. */
  lemma KnownFunctionResult(t: Tree, env: Env, name: string, args: Args)
    requires Lookup(name).Some?
    requires Bind(Lookup(name).value, Merge(args)).Bound?
    ensures var call := Bind(Lookup(name).value, Merge(args)).call;
      Dispatch(t, env, name, args)
        == (Invoke(t, env, call).0, Responded(Response(name, "result", Invoke(t, env, call).1)))
  {
  }

  /** The response always names the function asked for. */
  lemma ResponseKeepsName(t: Tree, env: Env, name: string, args: Args)
    ensures Dispatch(t, env, name, args).1.Responded? ==>
      Dispatch(t, env, name, args).1.response.name == name
    ensures Dispatch(t, env, name, args).1.Responded? ==>
      (Dispatch(t, env, name, args).1.response.key == "result" <==> Lookup(name).Some?)
  {
  }

  /** A bound run whose path passes the guard and whose arguments form a
      command: the one case in which a script is started. */
  predicate Launches(t: Tree, env: Env, call: Call) {
    call.Run?
    && RunPython.Guard(t, env.cwd, call.wd, call.filePath) == None
    && RunPython.CommandLine(env.cwd, call.wd, call.filePath, call.args).Launch?
  }

  /** The call `name(**args)` starts a script. */
  predicate ScriptLaunched(t: Tree, env: Env, name: string, args: Args) {
    Lookup(name) == Some(RunPythonTool)
    && Bind(RunPythonTool, Merge(args)).Bound?
    && Launches(t, env, Bind(RunPythonTool, Merge(args)).call)
  }

  /** Only `write_file`, and a `run_python_file` that starts its script,
      change the filesystem. */
  lemma OnlyWritesAndScriptsChange(t: Tree, env: Env, name: string, args: Args)
    ensures Dispatch(t, env, name, args).0 != t ==>
      name == "write_file" || ScriptLaunched(t, env, name, args)
  {
    var tool := Lookup(name);
    if tool.Some? {
      var kw := Merge(args);
      var b := Bind(tool.value, kw);
      if b.Bound? {
        assert b == BindPaths(tool.value, kw);
        BoundCallKind(tool.value, kw);
        if !b.call.Write? && !Launches(t, env, b.call) {
          ReadOnlyCall(t, env, b.call);
        }
      }
    }
  }

  /** A started script leaves the filesystem the runner says it does. */
  lemma ScriptChangesFilesystem(t: Tree, env: Env, name: string, args: Args)
    requires ScriptLaunched(t, env, name, args)
    ensures var call := Bind(RunPythonTool, Merge(args)).call;
      var inv := RunPython.CommandLine(env.cwd, call.wd, call.filePath, call.args).inv;
      Dispatch(t, env, name, args).0 == env.run(t, inv).0
  {
    var call := Bind(RunPythonTool, Merge(args)).call;
    RunPython.ScriptEffect(t, env.cwd, call.wd, call.filePath, call.args, env.run);
  }

  /** A bound call is a write exactly when the tool is `write_file`, and a
      run exactly when it is `run_python_file`. */
  lemma BoundCallKind(tool: Tool, kw: Args)
    requires Missing(Required(tool), kw) == [] && BindPaths(tool, kw).Bound?
    ensures BindPaths(tool, kw).call.Write? <==> tool == WriteFileTool
    ensures BindPaths(tool, kw).call.Run? <==> tool == RunPythonTool
  {
  }

  /** Neither a listing, nor a read, nor a run that starts nothing changes
      the filesystem. */
  lemma ReadOnlyCall(t: Tree, env: Env, call: Call)
    requires !call.Write? && !Launches(t, env, call)
    ensures Invoke(t, env, call).0 == t
  {
    if call.Run? {
      RunPython.ScriptEffect(t, env.cwd, call.wd, call.filePath, call.args, env.run);
    }
  }
}
