/** `run_python_file(working_directory, file_path, args=[])`: run a Python
    file inside the working directory and report its captured output. The
    interpreter itself is not modelled: what a run produces, and what the
    script does to the filesystem, is a parameter. */
module RunPython {
  import opened Text
  import opened Paths
  import opened FileTree
  import opened Values

  function OutsideError(filePath: string): string {
    "Error: Cannot execute \"" + filePath + "\" as it is outside the permitted working directory"
  }

  function NotFoundError(filePath: string): string {
    "Error: File \"" + filePath + "\" not found."
  }

  function NotPythonError(filePath: string): string {
    "Error: \"" + filePath + "\" is not a Python file."
  }

  /** The checks made before anything runs, first failure first: inside the
      root, existing (a file or a directory), and named `.py`. */
  function Guard(t: Tree, cwd: Cwd, wd: string, filePath: string): Option<string> {
    var joined := Join(wd, filePath);
    if !Confined(cwd, wd, filePath) then Some(OutsideError(filePath))
    else if AbsKey(cwd, joined) !in t then Some(NotFoundError(filePath))
    else if !EndsWith(AbsPath(cwd, joined), ".py") then Some(NotPythonError(filePath))
    else None
  }

  /** The command `subprocess.run` is handed: the argument vector and the
      directory the child runs in. */
  datatype Invocation = Invocation(argv: seq<string>, dir: string)

  /** What came back from `subprocess.run`: the decoded output streams and
      the exit status, or the text of the exception it raised (the program
      could not be launched, the 30-second timeout expired, the output was
      not valid UTF-8). */
  datatype Outcome =
    | Completed(stdout: string, stderr: string, returnCode: int)
    | Failed(message: string)

  function ExecError(message: string): string {
    "Error: executing Python file: " + message
  }

  /** `['python', absjoined_path] + args`, or the TypeError text when `args`
      is not a list. */
  function CommandLine(cwd: Cwd, wd: string, filePath: string, args: Value): Command
  {
    match args
    case StrList(items) =>
      Launch(Invocation(["python", AbsPath(cwd, Join(wd, filePath))] + items, AbsPath(cwd, wd)))
    case _ =>
      Refused("can only concatenate list (not \"" + TypeName(args) + "\") to list")
  }

  datatype Command = Launch(inv: Invocation) | Refused(message: string)

  /** What running a command on a filesystem does: the filesystem the
      script leaves behind (it runs in the root and may create, change or
      remove files) and what `subprocess.run` reports. */
  type Runner = (Tree, Invocation) -> (SoundTree, Outcome)

  function StdoutTag(): string { "STDOUT: " }
  function StderrTag(): string { "STDERR: " }
  function ExitTag(): string { "Process exited with code " }

  /** The report lines, each present only when it has something to say;
      `out` and `err` are the streams after `strip()`. */
  function OutputLines(out: string, err: string, code: int): seq<string> {
    (if out != "" then [StdoutTag() + out] else [])
    + (if err != "" then [StderrTag() + err] else [])
    + (if code != 0 then [ExitTag() + IntToString(code)] else [])
  }

  function Report(stdout: string, stderr: string, code: int): string {
    var lines := OutputLines(Strip(stdout), Strip(stderr), code);
    if lines == [] then "No output produced" else JoinWith("\n", lines)
  }

  /** The filesystem after `run_python_file` and the string it returns,
      when `run` says what a command does. */
  function RunResult(t: Tree, cwd: Cwd, wd: string, filePath: string, args: Value,
                     run: Runner): (Tree, string)
  {
    Proceed(t, Guard(t, cwd, wd, filePath), CommandLine(cwd, wd, filePath, args), run)
  }

  /** The guard's verdict decides; then the command is run, or refused. */
  function Proceed(t: Tree, guard: Option<string>, cmd: Command, run: Runner): (Tree, string) {
    match guard
    case Some(e) => (t, e)
    case None =>
      match cmd
      case Refused(m) => (t, ExecError(m))
      case Launch(inv) => Finished(run(t, inv))
  }

  /** The filesystem a run leaves, with what the tool says about the run. */
  function Finished(ran: (SoundTree, Outcome)): (Tree, string) {
    (ran.0, Answer(ran.1))
  }

  /** The report of a completed run, or the execution error. */
  function Answer(outcome: Outcome): string {
    match outcome
    case Failed(m) => ExecError(m)
    case Completed(out, err, code) => Report(out, err, code)
  }

  /** The formatting step: strip both streams, append a line for each thing
      worth saying, then join them. */
  method FormatCompleted(stdout: string, stderr: string, code: int) returns (r: string)
    ensures r == Report(stdout, stderr, code)
  {
    var lines := CollectLines(Strip(stdout), Strip(stderr), code);
    if lines == [] {
      return "No output produced";
    }
    r := JoinWith("\n", lines);
  }

  /** Appends, in order, the lines for the stripped streams and the exit code. */
  method CollectLines(out: string, err: string, code: int) returns (lines: seq<string>)
    ensures lines == OutputLines(out, err, code)
  {
    lines := [];
    if out != "" {
      lines := lines + [StdoutTag() + out];
    }
    ghost var first := lines;
    if err != "" {
      lines := lines + [StderrTag() + err];
    }
    ghost var second := lines;
    if code != 0 {
      lines := lines + [ExitTag() + IntToString(code)];
    }
    OutputLinesSteps(out, err, code, first, second, lines);
  }

  /** The three appends build OutputLines. */
  lemma OutputLinesSteps(out: string, err: string, code: int,
                         first: seq<string>, second: seq<string>, lines: seq<string>)
    requires first == if out != "" then [StdoutTag() + out] else []
    requires second == first + if err != "" then [StderrTag() + err] else []
    requires lines == second + if code != 0 then [ExitTag() + IntToString(code)] else []
    ensures lines == OutputLines(out, err, code)
  {
  }

  /** The tool: the guard, then the command, then the report. */
  method RunPythonFile(t: Tree, cwd: Cwd, wd: string, filePath: string, args: Value,
                       run: Runner) returns (after: Tree, r: string)
    ensures (after, r) == RunResult(t, cwd, wd, filePath, args, run)
  {
    after := t;
    var guard := Guard(t, cwd, wd, filePath);
    if guard.Some? {
      return t, guard.value;
    }
    var cmd := CommandLine(cwd, wd, filePath, args);
    if cmd.Refused? {
      return t, ExecError(cmd.message);
    }
    var ran := run(t, cmd.inv);
    var outcome;
    after, outcome := ran.0, ran.1;
    match outcome {
      case Failed(m) =>
        r := ExecError(m);
      case Completed(out, err, code) =>
        r := FormatCompleted(out, err, code);
    }
  }

  // ---------------------------------------------------------------------
  // The guard

  /** The checks in order: the first one that fails decides the message. */
  lemma GuardOrder(t: Tree, cwd: Cwd, wd: string, filePath: string)
    ensures var key := AbsKey(cwd, Join(wd, filePath));
      var g := Guard(t, cwd, wd, filePath);
      (!Confined(cwd, wd, filePath) ==> g == Some(OutsideError(filePath)))
      && (Confined(cwd, wd, filePath) && key !in t ==> g == Some(NotFoundError(filePath)))
      && ((Confined(cwd, wd, filePath) && key in t && !EndsWith(AbsPath(cwd, Join(wd, filePath)), ".py"))
          ==> g == Some(NotPythonError(filePath)))
  {
  }

  /** A file runs exactly when all three checks pass; otherwise the guard's
      error is the answer, the filesystem is untouched and `run` is never
      consulted. */
  lemma GuardDecides(t: Tree, cwd: Cwd, wd: string, filePath: string, args: Value,
                     run1: Runner, run2: Runner)
    ensures Guard(t, cwd, wd, filePath) == None
      <==> Confined(cwd, wd, filePath) && AbsKey(cwd, Join(wd, filePath)) in t
           && EndsWith(AbsPath(cwd, Join(wd, filePath)), ".py")
    ensures Guard(t, cwd, wd, filePath).Some? ==>
      RunResult(t, cwd, wd, filePath, args, run1) == (t, Guard(t, cwd, wd, filePath).value)
      && RunResult(t, cwd, wd, filePath, args, run1) == RunResult(t, cwd, wd, filePath, args, run2)
  {
  }

  /** The interpreter sees `python`, the absolute path and the arguments, in
      the absolute working directory. */
  lemma InvocationShape(cwd: Cwd, wd: string, filePath: string, items: seq<string>)
    ensures CommandLine(cwd, wd, filePath, StrList(items)).Launch?
    ensures var inv := CommandLine(cwd, wd, filePath, StrList(items)).inv;
      |inv.argv| == |items| + 2 && inv.argv[0] == "python"
      && inv.argv[1] == AbsPath(cwd, Join(wd, filePath)) && inv.argv[2..] == items
      && inv.dir == AbsPath(cwd, wd)
  {
    var inv := Invocation(["python", AbsPath(cwd, Join(wd, filePath))] + items, AbsPath(cwd, wd));
    assert CommandLine(cwd, wd, filePath, StrList(items)) == Launch(inv);
    assert inv.argv[2..] == items;
  }

  /** The result depends on nothing else `run` could do than what it does
      with that one command on the current filesystem. */
  lemma RunSeesOnlyCommand(t: Tree, cwd: Cwd, wd: string, filePath: string, args: Value,
                           run1: Runner, run2: Runner)
    requires Guard(t, cwd, wd, filePath) == None
    requires CommandLine(cwd, wd, filePath, args).Launch?
    requires var inv := CommandLine(cwd, wd, filePath, args).inv;
      run1(t, inv) == run2(t, inv)
    ensures RunResult(t, cwd, wd, filePath, args, run1) == RunResult(t, cwd, wd, filePath, args, run2)
  {
    var g := Guard(t, cwd, wd, filePath);
    var cmd := CommandLine(cwd, wd, filePath, args);
    assert Proceed(t, g, cmd, run1) == Finished(run1(t, cmd.inv));
    assert Proceed(t, g, cmd, run2) == Finished(run2(t, cmd.inv));
  }

  /** Only a launched script changes the filesystem, and then the filesystem
      is the one it leaves behind; a well-formed tree stays well formed. */
  lemma ScriptEffect(t: Tree, cwd: Cwd, wd: string, filePath: string, args: Value, run: Runner)
    ensures var r := RunResult(t, cwd, wd, filePath, args, run);
      var cmd := CommandLine(cwd, wd, filePath, args);
      if Guard(t, cwd, wd, filePath) == None && cmd.Launch? then r.0 == run(t, cmd.inv).0
      else r.0 == t
    ensures WellFormed(t) ==> WellFormed(RunResult(t, cwd, wd, filePath, args, run).0)
  {
    ProceedEffect(t, Guard(t, cwd, wd, filePath), CommandLine(cwd, wd, filePath, args), run);
  }

  lemma ProceedEffect(t: Tree, guard: Option<string>, cmd: Command, run: Runner)
    ensures guard == None && cmd.Launch? ==> Proceed(t, guard, cmd, run).0 == run(t, cmd.inv).0
    ensures !(guard == None && cmd.Launch?) ==> Proceed(t, guard, cmd, run).0 == t
    ensures WellFormed(t) ==> WellFormed(Proceed(t, guard, cmd, run).0)
  {
    if guard == None && cmd.Launch? {
      var ran := run(t, cmd.inv);
      var after: SoundTree := ran.0;
      assert Proceed(t, guard, cmd, run).0 == after;
    }
  }

  /** A failed launch, timeout or decoding error, and arguments that are not
      a list, are reported with the execution prefix. */
  lemma FailuresPrefixed(t: Tree, cwd: Cwd, wd: string, filePath: string, args: Value,
                         run: Runner)
    requires Guard(t, cwd, wd, filePath) == None
    requires !args.StrList? || run(t, CommandLine(cwd, wd, filePath, args).inv).1.Failed?
    ensures StartsWith(RunResult(t, cwd, wd, filePath, args, run).1, "Error: executing Python file: ")
  {
  }

  // ---------------------------------------------------------------------
  // The report

  /** A string whose `i`-th character differs from the tag's does not
      start with the tag. */
  lemma DiffersAt(l: string, tag: string, i: nat)
    requires i < |tag| && i < |l| && l[i] != tag[i]
    ensures !StartsWith(l, tag)
  {
  }

  /** The three kinds of line are told apart by their fourth or first
      character. */
  lemma TagHeads()
    ensures |StdoutTag()| == 8 && StdoutTag()[0] == 'S' && StdoutTag()[3] == 'O'
    ensures |StderrTag()| == 8 && StderrTag()[0] == 'S' && StderrTag()[3] == 'E'
    ensures |ExitTag()| == 25 && ExitTag()[0] == 'P'
  {
  }

  /** There is a STDOUT line exactly when the stripped stdout is non-empty;
      it is the first line and carries that text. */
  lemma StdoutLineIff(out: string, err: string, code: int)
    ensures var lines := OutputLines(out, err, code);
      (exists k :: 0 <= k < |lines| && StartsWith(lines[k], StdoutTag())) <==> out != ""
    ensures out != "" ==> OutputLines(out, err, code)[0] == StdoutTag() + out
  {
    var lines := OutputLines(out, err, code);
    TagHeads();
    forall k | 0 <= k < |lines| && lines[k] != StdoutTag() + out
      ensures !StartsWith(lines[k], StdoutTag())
    {
      if lines[k] == StderrTag() + err {
        DiffersAt(lines[k], StdoutTag(), 3);
      } else {
        assert lines[k] == ExitTag() + IntToString(code);
        DiffersAt(lines[k], StdoutTag(), 0);
      }
    }
    if out != "" {
      assert StartsWith(lines[0], StdoutTag());
    }
  }

  /** There is a STDERR line exactly when the stripped stderr is non-empty;
      it comes right after the STDOUT line, if any. */
  lemma StderrLineIff(out: string, err: string, code: int)
    ensures var lines := OutputLines(out, err, code);
      (exists k :: 0 <= k < |lines| && StartsWith(lines[k], StderrTag())) <==> err != ""
    ensures err != "" ==> OutputLines(out, err, code)[if out != "" then 1 else 0] == StderrTag() + err
  {
    var lines := OutputLines(out, err, code);
    TagHeads();
    forall k | 0 <= k < |lines| && lines[k] != StderrTag() + err
      ensures !StartsWith(lines[k], StderrTag())
    {
      if lines[k] == StdoutTag() + out {
        DiffersAt(lines[k], StderrTag(), 3);
      } else {
        assert lines[k] == ExitTag() + IntToString(code);
        DiffersAt(lines[k], StderrTag(), 0);
      }
    }
    if err != "" {
      var i := if out != "" then 1 else 0;
      assert lines[i] == StderrTag() + err;
      assert StartsWith(lines[i], StderrTag());
    }
  }

  /** There is an exit-code line exactly when the code is not 0; it is the
      last line and names the code. */
  lemma ExitLineIff(out: string, err: string, code: int)
    ensures var lines := OutputLines(out, err, code);
      (exists k :: 0 <= k < |lines| && StartsWith(lines[k], ExitTag())) <==> code != 0
    ensures code != 0 ==>
      var lines := OutputLines(out, err, code);
      lines[|lines| - 1] == ExitTag() + IntToString(code)
  {
    var lines := OutputLines(out, err, code);
    TagHeads();
    forall k | 0 <= k < |lines| && lines[k] != ExitTag() + IntToString(code)
      ensures !StartsWith(lines[k], ExitTag())
    {
      assert lines[k] == StdoutTag() + out || lines[k] == StderrTag() + err;
      DiffersAt(lines[k], ExitTag(), 0);
    }
    if code != 0 {
      assert StartsWith(lines[|lines| - 1], ExitTag());
    }
  }

  /** One line per thing worth saying, so at most three. */
  lemma AtMostThreeLines(out: string, err: string, code: int)
    ensures |OutputLines(out, err, code)|
         == (if out != "" then 1 else 0) + (if err != "" then 1 else 0) + (if code != 0 then 1 else 0)
    ensures |OutputLines(out, err, code)| <= 3
  {
  }

  /** The joined report starts with its first line. */
  lemma ReportStartsWithFirstLine(lines: seq<string>)
    requires |lines| > 0
    ensures StartsWith(JoinWith("\n", lines), lines[0])
  {
    JoinWithPrefix("\n", [lines[0]], lines[1..]);
    assert [lines[0]] + lines[1..] == lines;
  }

  /** "No output produced" comes back exactly when both streams strip to
      nothing and the process exited with 0. */
  lemma SilentIff(stdout: string, stderr: string, code: int)
    ensures Report(stdout, stderr, code) == "No output produced"
      <==> Strip(stdout) == "" && Strip(stderr) == "" && code == 0
  {
    var lines := OutputLines(Strip(stdout), Strip(stderr), code);
    if lines != [] {
      ReportStartsWithFirstLine(lines);
      TagHeads();
      assert lines[0][0] == 'S' || lines[0][0] == 'P';
      assert Report(stdout, stderr, code)[0] == lines[0][0];
    }
  }

  /** The report is never the empty string. */
  lemma ReportNeverEmpty(stdout: string, stderr: string, code: int)
    ensures Report(stdout, stderr, code) != ""
  {
    var lines := OutputLines(Strip(stdout), Strip(stderr), code);
    if lines != [] {
      ReportStartsWithFirstLine(lines);
      TagHeads();
      assert |lines[0]| > 0;
    }
  }

  /** A silent process with a non-zero status reports that status and
      nothing else. */
  lemma ExitCodeOnly(stdout: string, stderr: string, code: int)
    requires Strip(stdout) == "" && Strip(stderr) == "" && code != 0
    ensures Report(stdout, stderr, code) == ExitTag() + IntToString(code)
  {
    var line := ExitTag() + IntToString(code);
    ExitLineAlone(Strip(stdout), Strip(stderr), code);
    assert JoinWith("\n", [line]) == line;
  }

  lemma ExitLineAlone(out: string, err: string, code: int)
    requires out == "" && err == "" && code != 0
    ensures OutputLines(out, err, code) == [ExitTag() + IntToString(code)]
  {
    assert OutputLines(out, err, code) == [] + [] + [ExitTag() + IntToString(code)];
  }
}
