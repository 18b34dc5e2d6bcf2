# Tool core of a Gemini file-system agent

The agent gives a language model four tools that work on a directory tree
under one fixed root. The tools are `get_files_info`, `get_file_content`,
`write_file` and `run_python_file`. A dispatcher, `call_function`, routes
each call the model makes. Every tool first checks that the path it was
given stays inside the working directory. It then does its job and answers
with a string, and problems come back as `Error: ...` strings, not
exceptions.

This project models those five functions in Dafny and proves what they
promise:

- the confinement check and the order of the checks in each tool;
- the exact result strings;
- truncation of long files;
- parent-directory creation and overwriting with frame, idempotence and
  read-after-write properties;
- the formatting of a subprocess's output;
- the dispatch table, the injected root and the two-tier response.

Modules, one per source file plus shared pieces:

- `Text` (`text.dfy`): `str.startswith`, `str.join`, `str.split`, `str(int)`
  and `str.strip()` written out on strings.
- `Paths` (`paths.dfy`): covers the following.
  - `os.path.join`.
  - `os.path.abspath`, which is `normpath` of the join with the process
    working directory. The process working directory is a parameter. The
    model keeps the POSIX rule that exactly two leading slashes survive.
  - The confinement test, exactly as written: a raw string-prefix test on
    the two absolute paths.
- `FileTree` (`filetree.dfy`): the filesystem as a map from normalised
  absolute path components to `File(content)` or `Dir`. It also holds the
  texts of the OS errors the tools pass on.
- `Values` (`values.dfy`): the JSON values a call carries. A value is a
  string, a list of strings, JSON null (Python `None`), or another value
  with its Python type name, which is never `str`, `list` or `NoneType`.
- `GetFilesInfo`, `GetFileContent`, `WriteFile`, `RunPython` and
  `CallFunction`: one per source file.

Each operation that works step by step is an imperative method proved
equal to a specification function:

- `ListFiles` appends one line per entry in a loop.
- `Disk.WriteFile`, `Disk.MakeDirs` and `Disk.Store` update the filesystem field of a
  `Disk` object.
- `FormatCompleted` strips both streams and `CollectLines` appends the report lines one by one.
- `CallFunction` runs the tools' methods.

The lemmas are stated about the specification functions.

The environment becomes explicit inputs:

- the process working directory;
- the order in which `os.listdir` reports entries;
- the size the OS reports for each directory, a function of its path;
- an optional OS failure for each tool's `try` block;
- a function standing for `subprocess.run`, which maps the current
  filesystem and the command to the filesystem the script leaves behind and
  the outcome.

`MAX_CHARS` is a positive parameter.

Points where the code behaves in a way worth stating plainly:

- Confinement is a string-prefix test, not containment by path components.
  `Paths.SiblingPrefixEscapes` and `Paths.CalculatorEvilEscapes` show the
  difference.
- The unknown-tool message is `Unknown function: <name>`, sent under the
  `"error"` key.
- The sentinel is `No output produced`. The exit line is
  `Process exited with code N`.
- Some errors are not turned into strings. They propagate as a `TypeError`:
  - argument-binding errors, meaning an unexpected keyword or a missing
    required argument;
  - a non-string path, which reaches `os.path.join` outside the `try`.

  `CallFunction.Outcome.Raised` models these.
- `write_file`'s OS error texts name the absolute path. The vanished-entry
  error of `get_files_info` names the plain join of the listed directory and
  the name instead.
- `get_file_content` opens the file in text mode, so `"\r\n"` and a lone
  `"\r"` are read as `"\n"` and the cap counts characters after that
  translation. `GetFileContent.Translated` models it; `write_file` writes
  `"\r"` unchanged, so a written `"\r"` does not read back as itself.
- The report's entries are joined with newlines, and a stream may itself
  hold newlines. The statements about entries (`RunPython.StdoutLineIff`
  and its neighbours) are about the list `OutputLines`, not about the lines
  of the joined text: a stdout holding `"\nSTDERR: x"` gives a report line
  that reads like a stderr entry although stderr is empty.
- `write()` names the type of a bad argument, except that it prints
  `None` for None: JSON null content gives `... must be str, not None`.
  The list concatenation in `run_python_file` says `"NoneType"` for it.
- `run_python_file` runs an arbitrary script in the root, so it may change
  the filesystem; `write_file` is not the only tool that does.

## Model

| member | source | states |
|---|---|---|
| Text.IntToString | functions/write_file.py:15 | `str(i)` of an int: it starts with "-" exactly when the int is negative |
| Text.NatToString | functions/get_files_info.py:34 | decimal digits only, at least one, no leading zero |
| Text.NatToStringRoundTrip | functions/write_file.py:15 | the printed count reads back as the same number |
| Text.StripBounds | functions/run_python.py:19-21 | `strip()` cuts off only whitespace, and what it keeps neither starts nor ends with whitespace |
| Text.Strip | functions/run_python.py:19-21 | `str.strip()`: the text between the cut points of `StripBounds` |
| Text.StripEmptyIff | functions/run_python.py:19-29 | a stream strips to "" exactly when it is all whitespace |
| Text.EndsWith | functions/run_python.py:12 | Python `s.endswith(suffix)`: the last len(suffix) characters of s are suffix |
| Text.BoolToString | functions/get_files_info.py:34 | `str(b)` of a bool: `True` or `False` |
| Text.IsSpace | functions/run_python.py:19-21 | the characters `str.strip()` removes: those for which `str.isspace()` holds |
| Text.StartsWith | functions/get_files_info.py:25 | Python `s.startswith(prefix)`: the first len(prefix) characters of s are prefix |
| Text.JoinWith | functions/get_files_info.py:35 | Python `sep.join(parts)`: "" for no parts, the part itself for one, otherwise the parts with sep between each two |
| Text.SplitOn | functions/get_files_info.py:35 | the pieces of a text between separators, empty ones kept; there is at least one and none holds the separator |
| Text.SplitJoinRoundTrip | functions/get_files_info.py:35 | splitting a `"\n".join` of newline-free lines gives the lines back |
| Paths.Join | functions/get_files_info.py:23 | an absolute right operand makes the result absolute; a relative one gives a result that extends the left operand |
| Paths.IsAbs | functions/get_files_info.py:22-23 | a path is rooted exactly when it starts with "/" |
| Paths.Sep | functions/get_files_info.py:23 | the "/" that `os.path.join` puts between its operands: none after "" or after a trailing slash |
| Paths.Split | functions/get_file_content.py:7 | the components `normpath` splits a path into on "/": at least one, none holding "/" |
| Paths.Step | functions/get_file_content.py:7 | one step of `normpath`: "" and "." are dropped, ".." drops the last kept component and is dropped at the root, a name is kept |
| Paths.Reduce | functions/get_file_content.py:7 | the components `normpath` keeps, taking the steps left to right |
| Paths.Lead | functions/get_file_content.py:7 | the slashes `normpath` keeps in front of a rooted path: two exactly when the path starts with exactly two, otherwise one |
| Paths.AbsKey | functions/get_files_info.py:22-25 | the normalised components contain no "", "." or ".." |
| Paths.AbsPath | functions/write_file.py:5-6 | `abspath` always yields an absolute path |
| Paths.Confined | functions/write_file.py:5-8 | the confinement test as written: the absolute target path starts with the absolute root path as a string |
| Paths.InsideIsConfined | functions/write_file.py:5-8 | every relative path that lies inside the root by components, ".." steps included, passes the check |
| Paths.NoParentRefsInside | functions/write_file.py:5-8 | a relative path without ".." lies inside the root by components, and so passes the check |
| Paths.DotIsRoot | functions/get_files_info.py:4-25 | the default "." names the root itself and passes the check |
| Paths.SiblingPrefixEscapes | functions/get_file_content.py:6-8 | from root "./r", the sibling "../e" passes the check whenever name r is a proper prefix of name e, although e is not inside r |
| Paths.CalculatorEvilEscapes | functions/run_python.py:5-8 | with the injected root "./calculator", "../calculator_evil" passes the check but lies outside the root |
| FileTree.AncestorsAreDirs | functions/write_file.py:12 | in a well-formed tree every proper prefix of an entry is a directory |
| FileTree.Describe | functions/write_file.py:16-17 | `str(e)` of the OS errors the tools pass on: errno 2, 21, 20 and 17 with the quoted path, or the given text |
| GetFilesInfo.OutsideError | functions/get_files_info.py:26 | the outside-the-root text, quoting the directory as given |
| GetFilesInfo.NotDirectoryError | functions/get_files_info.py:28 | the not-a-directory text, quoting the directory as given |
| GetFilesInfo.Size | functions/get_files_info.py:34 | `os.path.getsize`: a file's length, or the directory's own size |
| GetFilesInfo.EntryLine | functions/get_files_info.py:34 | `- <name>: file_size=<size>, is_dir=<True/False>` for one entry |
| GetFilesInfo.Lines | functions/get_files_info.py:31-34 | the entry lines in listing order, each directory with the size that `dirSize` gives for its own path |
| GetFilesInfo.ListFiles | functions/get_files_info.py:22-37 | the loop's result is `FilesInfo`: checks in order, then one line per listed entry, or the error for an entry that vanished |
| GetFilesInfo.FirstMissing | functions/get_files_info.py:32-34 | the first listed entry that `getsize` would fail on; all before it exist |
| GetFilesInfo.OutsideNeedsNoAccess | functions/get_files_info.py:22-26 | outside the root the answer is the listing error, the same for every filesystem, listing and fault |
| GetFilesInfo.DefaultListsRoot | functions/get_files_info.py:4-35 | `directory="."` lists the root itself |
| GetFilesInfo.NotADirectoryReported | functions/get_files_info.py:27-28 | a confined path that is not a directory gets `Error: "<d>" is not a directory` |
| GetFilesInfo.FilesInfo | functions/get_files_info.py:22-37 | the result of `get_files_info`: outside error, not-a-directory error, OS fault, vanished-entry error, or the newline-joined entry lines |
| GetFilesInfo.Children | functions/get_files_info.py:32 | the names of a directory's entries: exactly those whose path is in the tree |
| GetFilesInfo.ListsChildren | functions/get_files_info.py:32 | what `os.listdir` returns: each entry of the directory exactly once, in some order |
| GetFilesInfo.ListedChildrenPresent | functions/get_files_info.py:32-34 | when `listdir` reports each entry once, every listed name exists and there are as many names as entries |
| GetFilesInfo.OneLinePerChild | functions/get_files_info.py:31-35 | a listing of a non-empty directory has exactly one line per entry of the directory: as many lines as entries, each line for an entry, a line for each entry |
| GetFilesInfo.OneLinePerEntry | functions/get_files_info.py:31-35 | the output splits into exactly one line per listed name, in listing order, each `- name: file_size=N, is_dir=B` with N the size of that entry itself, a directory's own size included |
| GetFilesInfo.LinesAt | functions/get_files_info.py:31-34 | entry line i describes listed name i |
| GetFilesInfo.EntryLineOneLine | functions/get_files_info.py:34 | an entry line holds no newline when the name holds none |
| GetFilesInfo.EmptyDirectoryIsEmptyString | functions/get_files_info.py:31-35 | a directory with no entries, listed as `listdir` reports it, gives "", not an error |
| GetFilesInfo.FailuresAreErrorStrings | functions/get_files_info.py:25-37 | every outcome other than a complete listing is a string starting `Error: ` |
| GetFileContent.OutsideError | functions/get_file_content.py:9 | the outside-the-root text, quoting the path as given |
| GetFileContent.NotFileError | functions/get_file_content.py:11 | the not-a-regular-file text, quoting the path as given |
| GetFileContent.TruncationMarker | functions/get_file_content.py:17 | `[...File "<p>" truncated at <MAX_CHARS> characters]` |
| GetFileContent.Translated | functions/get_file_content.py:14-15 | text mode's universal newlines: the text read holds no "\r" and is no longer than the raw file |
| GetFileContent.TranslatedWithoutCR | functions/get_file_content.py:14-15 | a raw text without "\r" is read as it is |
| GetFileContent.ReadAtMost | functions/get_file_content.py:15 | `read(n)` returns a prefix of at most n characters of the translated text, and all of it when it is no longer |
| GetFileContent.FileContent | functions/get_file_content.py:4-20 | the result of `get_file_content`: outside error, not-a-regular-file error, OS fault, or the translated text cut at MAX_CHARS with the marker |
| GetFileContent.OutsideNeedsNoAccess | functions/get_file_content.py:6-9 | outside the root the answer is the read error, the same for every filesystem and fault |
| GetFileContent.NotRegularFileReported | functions/get_file_content.py:10-11 | a missing path or a directory inside the root gets the not-a-regular-file error |
| GetFileContent.ReadsAtMostCapPlusOne | functions/get_file_content.py:15 | files whose translated texts agree on their first MAX_CHARS + 1 characters give the same answer |
| GetFileContent.ShortFileExact | functions/get_file_content.py:15-18 | a file whose translated text has at most MAX_CHARS characters comes back as that text; without "\r", exactly |
| GetFileContent.LongFileTruncated | functions/get_file_content.py:16-17 | a longer translated text gives its first MAX_CHARS characters and `[...File "<p>" truncated at <MAX_CHARS> characters]` |
| GetFileContent.ResultKeepsPrefix | functions/get_file_content.py:15-18 | the answer starts with the first min(len, MAX_CHARS) characters of the translated text |
| GetFileContent.CrLfCountsOnce | functions/get_file_content.py:14-18 | `"ab\r\n"` with MAX_CHARS = 3 reads whole, as `"ab\n"`: a "\r\n" ending is one character |
| WriteFile.Disk.WriteFile | functions/write_file.py:3-17 | the method leaves the tree and returns the string that `WriteResult` gives, and keeps the tree well formed |
| WriteFile.Disk.Store | functions/write_file.py:13-15 | the method leaves the tree and returns the string that `Overwrite` gives |
| WriteFile.Disk.MakeDirs | functions/write_file.py:12 | `makedirs` adds the missing proper prefixes as directories. At the first regular file it fails with File exists or Not a directory, and then nothing is changed |
| WriteFile.OutsideError | functions/write_file.py:9 | the outside-the-root text, quoting the path as given |
| WriteFile.SuccessMessage | functions/write_file.py:15 | `Successfully wrote to "<p>" (<n> characters written)` |
| WriteFile.NotStrError | functions/write_file.py:14-17 | the TypeError text of `write()` for a non-string argument |
| WriteFile.BadArgumentName | functions/write_file.py:14 | how CPython names the argument's type in that text: `None` for None, otherwise the type name |
| WriteFile.Overwrite | functions/write_file.py:13-15 | `open(path, 'w')` empties the target, then `write` stores a string with the success text, or raises for anything else |
| WriteFile.Render | functions/write_file.py:12 | the absolute path text the OS puts in an error for a list of components |
| WriteFile.PrefixDirs | functions/write_file.py:12 | the tree with the first n prefixes of the target added top down as directories where missing |
| WriteFile.WithDirs | functions/write_file.py:12 | `os.makedirs(os.path.dirname(path), exist_ok=True)`: every proper prefix of the target added as a directory where missing |
| WriteFile.MakedirsError | functions/write_file.py:12 | `makedirs` at a regular file: File exists when the file is the parent itself, Not a directory naming the next component when the file lies higher up |
| WriteFile.WriteSucceeds | functions/write_file.py:5-15 | a write gets through exactly when the path is inside the root, no OS fault occurs, no prefix is a regular file and the target is not a directory |
| WriteFile.WriteResult | functions/write_file.py:3-17 | the new filesystem and result of `write_file`: outside error, OS fault, makedirs error, is-a-directory error, then the truncating write |
| WriteFile.FileAncestorFrom | functions/write_file.py:12 | the first proper prefix that is a regular file; none before it is one |
| WriteFile.PrefixDirsContents | functions/write_file.py:12 | makedirs keeps every old entry and adds only directories, at prefixes of the target |
| WriteFile.NothingCreatedBelowFile | functions/write_file.py:12 | when a prefix is a regular file, all prefixes above it already exist, so the failed call changed nothing |
| WriteFile.WithDirsWellFormed | functions/write_file.py:12 | after makedirs the tree is well formed and every proper prefix of the target is a directory |
| WriteFile.WithDirsKeepsTarget | functions/write_file.py:12-13 | makedirs neither adds nor changes the target itself |
| WriteFile.WriteOutsideUnchanged | functions/write_file.py:5-9 | outside the root the filesystem is unchanged and the answer is the write error |
| WriteFile.WriteFrame | functions/write_file.py:12-14 | every entry other than the target keeps its node; every new entry is the target or a directory on the way to it |
| WriteFile.SucceededWrite | functions/write_file.py:12-15 | a write that gets through creates the directories, then truncates the target; it holds the string, or nothing for a non-string |
| WriteFile.WriteSuccess | functions/write_file.py:12-15 | after a successful write the target is `File(c)` and every ancestor is a `Dir`. The tree stays well formed and the message is `Successfully wrote to "<p>" (<len> characters written)` |
| WriteFile.WriteNonStringEmptiesFile | functions/write_file.py:13-17 | writing a non-string leaves an empty file and reports the TypeError |
| WriteFile.NullContentSaysNone | functions/write_file.py:13-17 | writing JSON null reports `Error: write() argument must be str, not None` |
| WriteFile.ForeignContentNamed | functions/write_file.py:13-17 | writing any other non-string, non-null value reports `... must be str, not <type name>` |
| WriteFile.WriteReportsSuccessIff | functions/write_file.py:11-17 | the success message is returned exactly when the write gets through with a string |
| WriteFile.NoFileOnTheWayAfter | functions/write_file.py:12 | after a write, a second makedirs for the same path finds nothing to do |
| WriteFile.WriteIdempotent | functions/write_file.py:12-15 | writing the same content to the same path twice gives the same filesystem and the same string as once |
| WriteFile.WriteThenReadShort | functions/write_file.py:13-14 | reading back a just-written string gives its text-mode translation when that has at most MAX_CHARS characters, and the string itself when it holds no "\r" |
| WriteFile.WriteThenReadLong | functions/get_file_content.py:15-17 | reading back a longer string gives the first MAX_CHARS characters of its translation and the marker |
| RunPython.OutsideError | functions/run_python.py:9 | the outside-the-root text, quoting the path as given |
| RunPython.NotFoundError | functions/run_python.py:11 | the not-found text, quoting the path as given |
| RunPython.NotPythonError | functions/run_python.py:13 | the not-a-Python-file text, quoting the path as given |
| RunPython.ExecError | functions/run_python.py:37-38 | `Error: executing Python file: <e>` |
| RunPython.Guard | functions/run_python.py:8-13 | the three checks before a run, first failure first |
| RunPython.CommandLine | functions/run_python.py:16 | `['python', abspath] + args` in the absolute root, or the TypeError text when `args` is not a list |
| RunPython.OutputLines | functions/run_python.py:24-31 | the STDOUT, STDERR and exit-code entries, each only when it has something to say |
| RunPython.Report | functions/run_python.py:18-35 | the stripped streams' entries joined with newlines, or `No output produced` |
| RunPython.RunResult | functions/run_python.py:4-38 | the filesystem the script leaves and the string returned: guard error, execution error or report |
| RunPython.Proceed | functions/run_python.py:8-38 | a guard error leaves everything as it was; a refused command gives the execution error; a launched one is run |
| RunPython.Finished | functions/run_python.py:17-38 | a run leaves the filesystem the runner gives, and the tool answers with `Answer` of the outcome |
| RunPython.Answer | functions/run_python.py:17-38 | a failed `subprocess.run` gives the execution error, a completed one the report |
| RunPython.ProceedEffect | functions/run_python.py:15-17 | the filesystem changes only when the guard passes and the command launches, and then to the well-formed tree the run leaves |
| RunPython.RunPythonFile | functions/run_python.py:4-38 | the method returns the filesystem after the run and the string that `RunResult` gives: guard, then command, then report or execution error |
| RunPython.FormatCompleted | functions/run_python.py:18-35 | stripping both streams and joining the collected entries, or "No output produced" when there are none, yields the report that `Report` gives |
| RunPython.CollectLines | functions/run_python.py:24-31 | the three conditional appends give exactly the STDOUT, STDERR and exit-code entries, in that order, each only when it has something to say |
| RunPython.GuardOrder | functions/run_python.py:8-13 | outside the root, then not found, then not `.py`: the first failing check decides the message |
| RunPython.GuardDecides | functions/run_python.py:8-13 | a file runs exactly when it is confined, exists and its absolute path ends in ".py"; otherwise the filesystem is untouched and the runner is never consulted |
| RunPython.ScriptEffect | functions/run_python.py:15-17 | only a launched script changes the filesystem, to what the run leaves behind; a well-formed tree stays well formed |
| RunPython.InvocationShape | functions/run_python.py:16-17 | the interpreter gets `["python", abspath] + args` in the absolute root |
| RunPython.RunSeesOnlyCommand | functions/run_python.py:16-38 | the filesystem and the answer depend only on what the runner does with that one command on the current filesystem |
| RunPython.FailuresPrefixed | functions/run_python.py:15-38 | failed launches and runs, and arguments that are not a list, give `Error: executing Python file: ...` |
| RunPython.StdoutLineIff | functions/run_python.py:19-27 | there is a `STDOUT: ` entry exactly when the stripped stdout is non-empty, and it is the first entry |
| RunPython.StderrLineIff | functions/run_python.py:21-29 | there is a `STDERR: ` entry exactly when the stripped stderr is non-empty, right after the STDOUT entry |
| RunPython.ExitLineIff | functions/run_python.py:30-31 | there is a `Process exited with code N` entry exactly when N is not 0, and it is the last entry |
| RunPython.AtMostThreeLines | functions/run_python.py:24-31 | one entry per thing worth saying, so at most three |
| RunPython.SilentIff | functions/run_python.py:33-34 | `No output produced` exactly when both streams strip to nothing and the code is 0 |
| RunPython.ReportNeverEmpty | functions/run_python.py:33-35 | the report is never the empty string |
| RunPython.ExitCodeOnly | functions/run_python.py:30-35 | a silent run with a non-zero code reports only `Process exited with code N` |
| RunPython.ReportStartsWithFirstLine | functions/run_python.py:35 | the joined report starts with its first entry |
| Values.TypeName | functions/run_python.py:16 | Python's `type(v).__name__`: `str`, `list`, `NoneType`, or the given name |
| CallFunction.Lookup | functions/call_function.py:39-47 | the dispatch table from the four names to their tools |
| CallFunction.Merge | functions/call_function.py:48 | `{**args, "working_directory": "./calculator"}` |
| CallFunction.Params | functions/call_function.py:39-48 | the keyword parameters of each registered tool, in declaration order, `working_directory` first |
| CallFunction.Required | functions/call_function.py:39-48 | the parameters without a default, each of them a parameter of the tool |
| CallFunction.PathArg | functions/get_files_info.py:23 | the string value of a path argument, or its default, or the TypeError `os.path.join` raises for a non-string |
| CallFunction.Bind | functions/call_function.py:48 | Python's keyword binding: unexpected keywords, then missing required ones, raise; otherwise the path checks |
| CallFunction.BindPaths | functions/call_function.py:48 | non-string path arguments raise outside the tools' `try`; otherwise the bound call with defaults filled in |
| CallFunction.Invoke | functions/call_function.py:47-48 | the new filesystem and the string of a bound call, from the tool it names |
| CallFunction.Dispatch | functions/call_function.py:46-68 | the unknown-function response, a propagated TypeError, or the tool's result under "result" |
| CallFunction.CallFunction | functions/call_function.py:46-68 | the method leaves the filesystem and returns the outcome `Dispatch` gives |
| CallFunction.Perform | functions/call_function.py:47-48 | a bound call runs through the tools' own methods, with the effect `Invoke` gives |
| CallFunction.RegistryExact | functions/call_function.py:39-46 | the table knows exactly the four tool names |
| CallFunction.UnknownFunction | functions/call_function.py:59-68 | an unknown name gets `{"error": "Unknown function: <name>"}`. No tool runs: the filesystem is unchanged and the environment is irrelevant |
| CallFunction.MergeInjectsRoot | functions/call_function.py:48 | the merge sets `working_directory` to "./calculator" over any caller value and keeps every other argument |
| CallFunction.BoundInRoot | functions/call_function.py:48 | a tool always runs with working directory "./calculator" |
| CallFunction.PassThrough | functions/call_function.py:48 | every other caller argument reaches the tool unchanged; absent optional ones take the defaults "." and [] |
| CallFunction.BoundPathArgs | functions/call_function.py:48 | once the keywords fit, each parameter of the bound call holds the caller's value, or its default when it was not given |
| CallFunction.BoundCallKind | functions/call_function.py:47-48 | the bound call is a write exactly when the name chose `write_file`, and a run exactly when it chose `run_python_file` |
| CallFunction.BoundKeywordsKnown | functions/call_function.py:48 | a call that binds names only parameters of the tool |
| CallFunction.Missing | functions/call_function.py:48 | the missing required parameters are exactly those not supplied |
| CallFunction.BindingErrors | functions/call_function.py:48 | an unknown keyword raises exactly when the caller sent one; `working_directory` is never the culprit |
| CallFunction.KnownFunctionResult | functions/call_function.py:47-58 | a known tool's string, including an `Error:` one, comes back verbatim under "result" |
| CallFunction.ResponseKeepsName | functions/call_function.py:50-68 | every response carries the requested name, with key "result" exactly for known names |
| CallFunction.OnlyWritesAndScriptsChange | functions/call_function.py:47-48 | only `write_file`, and a `run_python_file` that starts its script, can change the filesystem |
| CallFunction.ScriptChangesFilesystem | functions/call_function.py:47-48 | a started script leaves the filesystem the runner gives for its command |
| CallFunction.ReadOnlyCall | functions/call_function.py:47-48 | a listing, a read, or a run that starts nothing leaves the filesystem as it was |

## Left out

- `main.py`: the Gemini client, command-line parsing, schemas and the conversation loop are outside this model.
- Real OS calls are replaced by the filesystem map:
  - `listdir`, `getsize`, `isdir`, `isfile`, `exists`, `makedirs` and `open`;
  - listing order, each directory's own size and OS failures are inputs.
- Symbolic links, devices and permissions are not modelled. `abspath` does not resolve links. A permission failure is only an input fault.
- GetFilesInfo.FilesInfo:
  - The OS resolves `isdir(joined_path)` on the unnormalised path. The model looks up the lexically normalised key. They differ only when a ".." follows a component that is not a directory.
  - The entry path in a vanished-entry error is the plain join of the directory and the name.
- GetFilesInfo.Size: file sizes count characters, not bytes. This matches for ASCII content only.
- OS faults in `write_file` are modelled only before any effect. A `makedirs` or `write` that fails part-way, leaving some directories created, is not modelled.
- Python `repr` quoting of paths inside OS error texts is approximated by single quotes around the path.
- Process execution is modelled only through the runner function:
  - `subprocess.run`, its 30-second timeout and UTF-8 decoding;
  - a timeout, a launch failure or a decoding failure is a `Failed` outcome with its message;
  - what a script does to the filesystem is whatever well-formed tree the runner returns; nothing more is known about it.
- Non-string elements of a `run_python_file` argument list are not modelled. Lists carry strings only.
- CallFunction.BindingErrors: keyword-binding and path-type `TypeError`s are modelled by kind only, not by their exact texts. An unexpected-keyword error carries the whole set of unexpected names. Python reports the first one in argument order, which the map does not keep.
- The `print` trace in `call_function` is observability only and is left out.
- `config.MAX_CHARS` is not part of this model. It is a positive parameter.
