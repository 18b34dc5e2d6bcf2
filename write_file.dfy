/** `write_file(working_directory, file_path, content)`: create the missing
    parent directories of a file inside the working directory, then create
    or overwrite the file. The filesystem is the one piece of state the
    tools change; it lives in a `Disk` object. */
module WriteFile {
  import opened Text
  import opened Paths
  import opened FileTree
  import opened Values
  import GetFileContent

  function OutsideError(filePath: string): string {
    "Error: Cannot write to \"" + filePath + "\" as it is outside the permitted working directory"
  }

  function SuccessMessage(filePath: string, written: nat): string {
    "Successfully wrote to \"" + filePath + "\" (" + IntToString(written) + " characters written)"
  }

  /** The TypeError text `write()` gives for a non-string. */
  function NotStrError(content: Value): string {
    "Error: write() argument must be str, not " + BadArgumentName(content)
  }

  /** How CPython names a bad argument's type: by its type name, except
      that None is printed as `None`. */
  function BadArgumentName(v: Value): string {
    match v
    case Null => "None"
    case _ => TypeName(v)
  }

  /** The path string the OS reports for the components `k`. */
  function Render(lead: string, k: Segments): string {
    lead + JoinWith("/", k)
  }

  /** The first prefix `key[..j]`, j >= i, that is a regular file (|key| if none). */
  function FileAncestorFrom(t: Tree, key: Segments, i: nat): (j: nat)
    requires i <= |key|
    ensures i <= j <= |key|
    ensures forall m :: i <= m < j ==> !IsFile(t, key[..m])
    ensures j < |key| ==> IsFile(t, key[..j])
    decreases |key| - i
  {
    if i == |key| || IsFile(t, key[..i]) then i else FileAncestorFrom(t, key, i + 1)
  }

  /** `t` with the first `n` prefixes of `key` added, top down, as
      directories where missing. */
  function PrefixDirs(t: Tree, key: Segments, n: nat): Tree
    requires n <= |key|
    decreases n
  {
    if n == 0 then t
    else
      var p := PrefixDirs(t, key, n - 1);
      if key[..n - 1] in p then p else p[key[..n - 1] := Dir]
  }

  /** What PrefixDirs holds: the old entries unchanged, plus a directory at
      each of the first `n` prefixes that was missing. */
  lemma {:induction false} PrefixDirsContents(t: Tree, key: Segments, n: nat, k: Segments)
    requires n <= |key|
    ensures k in PrefixDirs(t, key, n) <==> k in t || exists j :: 0 <= j < n && k == key[..j]
    ensures k in t ==> PrefixDirs(t, key, n)[k] == t[k]
    ensures k in PrefixDirs(t, key, n) && k !in t ==> PrefixDirs(t, key, n)[k] == Dir
    decreases n
  {
    if n > 0 {
      PrefixDirsContents(t, key, n - 1, k);
      if k == key[..n - 1] {
        assert exists j :: 0 <= j < n && k == key[..j];
      }
      if exists j :: 0 <= j < n && k == key[..j] {
        var j :| 0 <= j < n && k == key[..j];
        if j < n - 1 {
          assert exists j' :: 0 <= j' < n - 1 && k == key[..j'];
        }
      }
    }
  }

  /** What `os.makedirs(os.path.dirname(path), exist_ok=True)` leaves. */
  function WithDirs(t: Tree, key: Segments): Tree {
    PrefixDirs(t, key, |key|)
  }

  /** The error `makedirs` raises when `key[..i]` is a regular file: the
      directory to create is the file itself, or lies below it. */
  function MakedirsError(lead: string, key: Segments, i: nat): OsError
    requires i < |key|
  {
    if i == |key| - 1 then FileExists(Render(lead, key[..i]))
    else NotADirectory(Render(lead, key[..i + 1]))
  }

  /** The new filesystem and the returned string of one `write_file` call;
      `fault` is an OS failure (permission denied, say) raised before
      anything is created. */
  function WriteResult(t: Tree, cwd: Cwd, wd: string, filePath: string,
                       content: Value, fault: Option<string>): (Tree, string)
  {
    var joined := Join(wd, filePath);
    var key := AbsKey(cwd, joined);
    var lead := Lead(Join(cwd, joined));
    if !Confined(cwd, wd, filePath) then (t, OutsideError(filePath))
    else if fault.Some? then (t, "Error: " + fault.value)
    else
      var i := FileAncestorFrom(t, key, 0);
      if i < |key| then (t, "Error: " + Describe(MakedirsError(lead, key, i)))
      else
        var t' := WithDirs(t, key);
        if IsDir(t', key) then (t', "Error: " + Describe(IsADirectory(Render(lead, key))))
        else Overwrite(t', key, filePath, content)
  }

  /** `open(path, 'w')` truncates the file at `key`, then `write(content)`
      fills it with a string or raises for anything else. */
  function Overwrite(t: Tree, key: Segments, filePath: string, content: Value): (Tree, string) {
    match content
    case Str(c) => (t[key := File(c)], SuccessMessage(filePath, |c|))
    case _ => (t[key := File("")], NotStrError(content))
  }

  /** When a write goes through: inside the root, no OS fault, no regular
      file on the way and no directory in the place of the file. */
  predicate WriteSucceeds(t: Tree, cwd: Cwd, wd: string, filePath: string, fault: Option<string>) {
    var key := AbsKey(cwd, Join(wd, filePath));
    Confined(cwd, wd, filePath) && fault.None?
    && FileAncestorFrom(t, key, 0) == |key| && !IsDir(t, key)
  }

  class Disk {
    var tree: Tree

    predicate Valid()
      reads this
    {
      WellFormed(tree)
    }

    constructor (t: Tree)
      requires WellFormed(t)
      ensures Valid() && tree == t
    {
      tree := t;
    }

    method WriteFile(cwd: Cwd, wd: string, filePath: string, content: Value, fault: Option<string>)
      returns (msg: string)
      requires Valid()
      modifies this
      ensures Valid()
      ensures (tree, msg) == WriteResult(old(tree), cwd, wd, filePath, content, fault)
    {
      var joined := Join(wd, filePath);
      if !StartsWith(AbsPath(cwd, joined), AbsPath(cwd, wd)) {
        return OutsideError(filePath);
      }
      if fault.Some? {
        return "Error: " + fault.value;
      }
      var key := AbsKey(cwd, joined);
      var lead := Lead(Join(cwd, joined));
      var err := MakeDirs(key, lead);
      if err.Some? {
        return "Error: " + Describe(err.value);
      }
      if key in tree && tree[key].Dir? {
        return "Error: " + Describe(IsADirectory(Render(lead, key)));
      }
      msg := Store(key, filePath, content);
      WrittenWellFormed(old(tree), key, tree[key]);
    }

    /** `open(path, 'w')` then `write(content)` on the file at `key`. */
    method Store(key: Segments, filePath: string, content: Value) returns (msg: string)
      modifies this
      ensures (tree, msg) == Overwrite(old(tree), key, filePath, content)
    {
      match content {
        case Str(c) =>
          tree := tree[key := File(c)];
          msg := SuccessMessage(filePath, |c|);
        case _ =>
          tree := tree[key := File("")];
          msg := NotStrError(content);
      }
    }

    /** `os.makedirs(os.path.dirname(path), exist_ok=True)` for the path with
        components `key`: create the missing proper prefixes, top down,
        failing at the first one that is a regular file. */
    method MakeDirs(key: Segments, lead: string) returns (err: Option<OsError>)
      requires Valid()
      modifies this
      ensures Valid()
      ensures var i := FileAncestorFrom(old(tree), key, 0);
        if i < |key| then err == Some(MakedirsError(lead, key, i)) && tree == old(tree)
        else err == None && tree == WithDirs(old(tree), key)
    {
      ghost var t0 := tree;
      var i := 0;
      while i < |key|
        invariant 0 <= i <= |key|
        invariant forall m :: 0 <= m < i ==> !IsFile(t0, key[..m])
        invariant tree == PrefixDirs(t0, key, i)
      {
        var anc := key[..i];
        PrefixDirsContents(t0, key, i, anc);
        if anc in tree && tree[anc].File? {
          FileAncestorAt(t0, key, i);
          NothingCreatedBelowFile(t0, key, i);
          return Some(MakedirsError(lead, key, i));
        }
        NoFileSoFar(t0, key, i);
        if anc !in tree {
          tree := tree[anc := Dir];
        }
        i := i + 1;
      }
      FileAncestorAt(t0, key, |key|);
      WithDirsWellFormed(t0, key);
      err := None;
    }
  }

  /** The scan passes one more prefix that is not a regular file. */
  lemma NoFileSoFar(t: Tree, key: Segments, i: nat)
    requires i < |key|
    requires forall m :: 0 <= m < i ==> !IsFile(t, key[..m])
    requires !IsFile(t, key[..i])
    ensures forall m :: 0 <= m < i + 1 ==> !IsFile(t, key[..m])
  {
  }

  /** The first regular-file prefix is where the scan stops. */
  lemma FileAncestorAt(t: Tree, key: Segments, i: nat)
    requires i <= |key|
    requires forall m :: 0 <= m < i ==> !IsFile(t, key[..m])
    requires i < |key| ==> IsFile(t, key[..i])
    ensures FileAncestorFrom(t, key, 0) == i
  {
  }

  /** When the first `n` prefixes all exist, nothing is added. */
  lemma {:induction false} PrefixDirsPresent(t: Tree, key: Segments, n: nat)
    requires n <= |key|
    requires forall m :: 0 <= m < n ==> key[..m] in t
    ensures PrefixDirs(t, key, n) == t
    decreases n
  {
    if n > 0 {
      PrefixDirsPresent(t, key, n - 1);
    }
  }

  /** Below a regular file nothing needs creating above it: all earlier
      prefixes already exist, so the failed `makedirs` changed nothing. */
  lemma NothingCreatedBelowFile(t: Tree, key: Segments, i: nat)
    requires WellFormed(t) && i < |key| && IsFile(t, key[..i])
    ensures PrefixDirs(t, key, i) == t
  {
    forall m | 0 <= m < i ensures key[..m] in t {
      AncestorsAreDirs(t, key[..i], m);
      assert key[..i][..m] == key[..m];
    }
    PrefixDirsPresent(t, key, i);
  }

  /** With no regular file on the way, `makedirs` leaves a tree in which
      every proper prefix of the target is a directory. */
  lemma WithDirsWellFormed(t: Tree, key: Segments)
    requires WellFormed(t) && FileAncestorFrom(t, key, 0) == |key|
    ensures WellFormed(WithDirs(t, key))
    ensures forall j :: 0 <= j < |key| ==> IsDir(WithDirs(t, key), key[..j])
  {
    var t' := WithDirs(t, key);
    PrefixDirsContents(t, key, |key|, []);
    forall j | 0 <= j < |key| ensures IsDir(t', key[..j]) {
      PrefixDirsContents(t, key, |key|, key[..j]);
    }
    forall k | k in t' && k != [] ensures IsDir(t', k[..|k| - 1]) {
      PrefixDirsContents(t, key, |key|, k);
      PrefixDirsContents(t, key, |key|, k[..|k| - 1]);
      if k !in t {
        var j :| 0 <= j < |key| && k == key[..j];
        assert key[..j][..j - 1] == key[..j - 1];
      }
    }
  }

  lemma WrittenWellFormed(t: Tree, key: Segments, n: Node)
    requires WellFormed(t) && FileAncestorFrom(t, key, 0) == |key|
    requires !IsDir(WithDirs(t, key), key)
    ensures WellFormed(WithDirs(t, key)[key := n])
  {
    WithDirsWellFormed(t, key);
    var t' := WithDirs(t, key)[key := n];
    if key != [] {
      assert IsDir(t', key[..|key| - 1]);
    }
  }

  /** The target itself is never one of its own proper prefixes, so
      `makedirs` neither adds nor changes it. */
  lemma WithDirsKeepsTarget(t: Tree, key: Segments)
    ensures key in WithDirs(t, key) <==> key in t
    ensures key in t ==> WithDirs(t, key)[key] == t[key]
  {
    PrefixDirsContents(t, key, |key|, key);
    forall j | 0 <= j < |key| ensures key[..j] != key {
      assert |key[..j]| == j;
    }
  }

  /** Outside the working directory the filesystem is left alone. */
  lemma WriteOutsideUnchanged(t: Tree, cwd: Cwd, wd: string, filePath: string,
                              content: Value, fault: Option<string>)
    requires !Confined(cwd, wd, filePath)
    ensures WriteResult(t, cwd, wd, filePath, content, fault) == (t, OutsideError(filePath))
  {
  }

  /** Whatever happens, a write touches only the target and its ancestors:
      every other entry keeps its node, and every new entry is the target or
      a directory on the way to it. */
  lemma WriteFrame(t: Tree, cwd: Cwd, wd: string, filePath: string,
                   content: Value, fault: Option<string>)
    ensures var r := WriteResult(t, cwd, wd, filePath, content, fault).0;
      var key := AbsKey(cwd, Join(wd, filePath));
      (forall k :: k in t && k != key ==> k in r && r[k] == t[k])
      && (forall k :: k in r && k !in t ==> k == key || (k in Ancestors(key) && r[k] == Dir))
  {
    var key := AbsKey(cwd, Join(wd, filePath));
    var r := WriteResult(t, cwd, wd, filePath, content, fault).0;
    forall k {
      PrefixDirsContents(t, key, |key|, k);
    }
    if Confined(cwd, wd, filePath) && fault.None? && FileAncestorFrom(t, key, 0) == |key| {
      var w := WithDirs(t, key);
      if !IsDir(w, key) {
        assert r == w[key := File(if content.Str? then content.s else "")];
      }
    }
  }

  /** What a write that goes through leaves: the missing directories, and
      the target holding the string, or nothing for any other value. */
  lemma SucceededWrite(t: Tree, cwd: Cwd, wd: string, filePath: string,
                       content: Value, fault: Option<string>)
    requires WriteSucceeds(t, cwd, wd, filePath, fault)
    ensures var key := AbsKey(cwd, Join(wd, filePath));
      WriteResult(t, cwd, wd, filePath, content, fault).0
        == WithDirs(t, key)[key := File(if content.Str? then content.s else "")]
    ensures content.Str? ==>
      WriteResult(t, cwd, wd, filePath, content, fault).1 == SuccessMessage(filePath, |content.s|)
    ensures !content.Str? ==>
      WriteResult(t, cwd, wd, filePath, content, fault).1
        == NotStrError(content)
  {
    WithDirsKeepsTarget(t, AbsKey(cwd, Join(wd, filePath)));
  }

  /** The written tree: well formed, the target a file holding `c`
      and every proper prefix of the target a directory. */
  lemma WrittenTree(t: Tree, key: Segments, c: string)
    requires WellFormed(t) && FileAncestorFrom(t, key, 0) == |key| && !IsDir(t, key)
    ensures var r := WithDirs(t, key)[key := File(c)];
      WellFormed(r) && IsFile(r, key) && r[key].content == c
      && forall j :: 0 <= j < |key| ==> IsDir(r, key[..j])
  {
    WithDirsKeepsTarget(t, key);
    WrittenWellFormed(t, key, File(c));
    WithDirsWellFormed(t, key);
    forall j | 0 <= j < |key| ensures key[..j] != key {
      assert |key[..j]| == j;
    }
  }

  /** A successful write of a string: the file holds exactly that string,
      every proper prefix of it is a directory, the tree stays well formed
      and the message counts the characters written. */
  lemma WriteSuccess(t: Tree, cwd: Cwd, wd: string, filePath: string, c: string,
                     fault: Option<string>)
    requires WellFormed(t) && WriteSucceeds(t, cwd, wd, filePath, fault)
    ensures var r := WriteResult(t, cwd, wd, filePath, Str(c), fault);
      var key := AbsKey(cwd, Join(wd, filePath));
      r.1 == SuccessMessage(filePath, |c|)
      && IsFile(r.0, key) && r.0[key].content == c
      && (forall j :: 0 <= j < |key| ==> IsDir(r.0, key[..j]))
      && WellFormed(r.0)
  {
    SucceededWrite(t, cwd, wd, filePath, Str(c), fault);
    WrittenTree(t, AbsKey(cwd, Join(wd, filePath)), c);
  }

  /** A non-string content still truncates the file (it is opened for
      writing first), leaving it empty, and the call reports the TypeError. */
  lemma WriteNonStringEmptiesFile(t: Tree, cwd: Cwd, wd: string, filePath: string,
                                  content: Value, fault: Option<string>)
    requires WellFormed(t) && WriteSucceeds(t, cwd, wd, filePath, fault) && !content.Str?
    ensures var r := WriteResult(t, cwd, wd, filePath, content, fault);
      var key := AbsKey(cwd, Join(wd, filePath));
      r.1 == NotStrError(content)
      && IsFile(r.0, key) && r.0[key].content == ""
      && WellFormed(r.0)
  {
    SucceededWrite(t, cwd, wd, filePath, content, fault);
    WrittenTree(t, AbsKey(cwd, Join(wd, filePath)), "");
  }

  /** JSON null empties the file and is reported as `None`, the way
      `write()` prints it, not by its type name `NoneType`. */
  lemma NullContentSaysNone(t: Tree, cwd: Cwd, wd: string, filePath: string, fault: Option<string>)
    requires WriteSucceeds(t, cwd, wd, filePath, fault)
    ensures WriteResult(t, cwd, wd, filePath, Null, fault).1 == "Error: write() argument must be str, not " + "None"
  {
    SucceededWrite(t, cwd, wd, filePath, Null, fault);
  }

  /** Content of any other non-string type is reported by its type name. */
  lemma ForeignContentNamed(t: Tree, cwd: Cwd, wd: string, filePath: string,
                            n: ForeignType, fault: Option<string>)
    requires WriteSucceeds(t, cwd, wd, filePath, fault)
    ensures WriteResult(t, cwd, wd, filePath, Other(n), fault).1 == "Error: write() argument must be str, not " + n
  {
    SucceededWrite(t, cwd, wd, filePath, Other(n), fault);
  }

  /** The success message is returned exactly when the write goes through
      with a string; every other outcome is an error string. */
  lemma WriteReportsSuccessIff(t: Tree, cwd: Cwd, wd: string, filePath: string,
                               content: Value, fault: Option<string>)
    ensures var r := WriteResult(t, cwd, wd, filePath, content, fault);
      (WriteSucceeds(t, cwd, wd, filePath, fault) && content.Str?)
        <==> (content.Str? && r.1 == SuccessMessage(filePath, |content.s|))
  {
    var key := AbsKey(cwd, Join(wd, filePath));
    WithDirsKeepsTarget(t, key);
    var r := WriteResult(t, cwd, wd, filePath, content, fault);
    if content.Str? && !WriteSucceeds(t, cwd, wd, filePath, fault) {
      assert r.1[0] == 'E';
      assert SuccessMessage(filePath, |content.s|)[0] == 'S';
    }
  }

  /** After a write that found no regular file on its way, every proper
      prefix of the target is a directory, so a second scan passes too. */
  lemma NoFileOnTheWayAfter(t: Tree, key: Segments, n: Node)
    requires FileAncestorFrom(t, key, 0) == |key|
    ensures FileAncestorFrom(WithDirs(t, key), key, 0) == |key|
    ensures FileAncestorFrom(WithDirs(t, key)[key := n], key, 0) == |key|
    ensures WithDirs(WithDirs(t, key), key) == WithDirs(t, key)
    ensures WithDirs(WithDirs(t, key)[key := n], key) == WithDirs(t, key)[key := n]
  {
    var t' := WithDirs(t, key);
    var t1 := t'[key := n];
    forall m | 0 <= m < |key| ensures IsDir(t', key[..m]) && IsDir(t1, key[..m]) {
      PrefixDirsContents(t, key, |key|, key[..m]);
      assert |key[..m]| == m;
    }
    FileAncestorAt(t', key, |key|);
    FileAncestorAt(t1, key, |key|);
    PrefixDirsPresent(t', key, |key|);
    PrefixDirsPresent(t1, key, |key|);
  }

  /** Writing the same content to the same path twice leaves the same
      filesystem and returns the same string as writing it once. */
  lemma WriteIdempotent(t: Tree, cwd: Cwd, wd: string, filePath: string,
                        content: Value, fault: Option<string>)
    ensures var once := WriteResult(t, cwd, wd, filePath, content, fault);
      WriteResult(once.0, cwd, wd, filePath, content, fault) == once
  {
    var key := AbsKey(cwd, Join(wd, filePath));
    if Confined(cwd, wd, filePath) && fault.None? && FileAncestorFrom(t, key, 0) == |key| {
      var n := File(if content.Str? then content.s else "");
      NoFileOnTheWayAfter(t, key, n);
      var t' := WithDirs(t, key);
      if !IsDir(t', key) {
        assert WriteResult(t, cwd, wd, filePath, content, fault).0 == t'[key := n];
        assert t'[key := n][key := n] == t'[key := n];
      }
    }
  }

  /** Reading back a file just written gives the string written, with its
      line endings translated as text mode reads them, when that fits the
      cap; a string without carriage returns comes back exactly. */
  lemma WriteThenReadShort(t: Tree, cwd: Cwd, wd: string, filePath: string, c: string,
                           maxChars: GetFileContent.Cap, fault: Option<string>)
    requires WellFormed(t) && WriteSucceeds(t, cwd, wd, filePath, fault)
    requires |GetFileContent.Translated(c)| <= maxChars
    ensures GetFileContent.FileContent(WriteResult(t, cwd, wd, filePath, Str(c), fault).0,
                                       cwd, wd, filePath, maxChars, None) == GetFileContent.Translated(c)
    ensures '\r' !in c ==>
      GetFileContent.FileContent(WriteResult(t, cwd, wd, filePath, Str(c), fault).0,
                                 cwd, wd, filePath, maxChars, None) == c
  {
    WriteSuccess(t, cwd, wd, filePath, c, fault);
    GetFileContent.ShortFileExact(WriteResult(t, cwd, wd, filePath, Str(c), fault).0,
                                  cwd, wd, filePath, maxChars);
  }

  /** ... and the first MAX_CHARS characters of that text with the
      truncation marker when it is longer. */
  lemma WriteThenReadLong(t: Tree, cwd: Cwd, wd: string, filePath: string, c: string,
                          maxChars: GetFileContent.Cap, fault: Option<string>)
    requires WellFormed(t) && WriteSucceeds(t, cwd, wd, filePath, fault)
    requires |GetFileContent.Translated(c)| > maxChars
    ensures GetFileContent.FileContent(WriteResult(t, cwd, wd, filePath, Str(c), fault).0,
                                       cwd, wd, filePath, maxChars, None)
         == GetFileContent.Translated(c)[..maxChars] + GetFileContent.TruncationMarker(filePath, maxChars)
  {
    WriteSuccess(t, cwd, wd, filePath, c, fault);
    GetFileContent.LongFileTruncated(WriteResult(t, cwd, wd, filePath, Str(c), fault).0,
                                     cwd, wd, filePath, maxChars);
  }
}
