/** `get_file_content(working_directory, file_path)`: the text of a regular
    file inside the working directory, cut at a fixed number of characters
    with a marker naming the file and the cap. */
module GetFileContent {
  import opened Text
  import opened Paths
  import opened FileTree

  /** The configured `MAX_CHARS`, a positive number of characters. */
  type Cap = n: nat | n > 0 witness 1

  function OutsideError(filePath: string): string {
    "Error: Cannot read \"" + filePath + "\" as it is outside the permitted working directory"
  }

  function NotFileError(filePath: string): string {
    "Error: File not found or is not a regular file: \"" + filePath + "\""
  }

  function TruncationMarker(filePath: string, maxChars: Cap): string {
    "[...File \"" + filePath + "\" truncated at " + IntToString(maxChars) + " characters]"
  }

  /** What a file opened with `open(path, 'r')` yields: universal-newline
      mode turns each "\r\n" and each lone "\r" into "\n". */
  function Translated(raw: string): (s: string)
    ensures |s| <= |raw|
    ensures '\r' !in s
    decreases |raw|
  {
    if raw == [] then []
    else if raw[0] == '\r' then
      "\n" + Translated(if |raw| > 1 && raw[1] == '\n' then raw[2..] else raw[1..])
    else [raw[0]] + Translated(raw[1..])
  }

  /** Text without carriage returns reads back as it is. */
  lemma {:induction false} TranslatedWithoutCR(raw: string)
    requires '\r' !in raw
    ensures Translated(raw) == raw
    decreases |raw|
  {
    if raw != [] {
      assert raw[0] != '\r';
      assert '\r' !in raw[1..] by {
        forall i | 0 <= i < |raw[1..]| ensures raw[1..][i] != '\r' {
          assert raw[1..][i] == raw[i + 1];
        }
      }
      TranslatedWithoutCR(raw[1..]);
      assert raw == [raw[0]] + raw[1..];
    }
  }

  /** `f.read(n)` on the translated text: at most its first `n` characters. */
  function ReadAtMost(content: string, n: nat): (r: string)
    ensures |r| <= n && StartsWith(content, r)
    ensures |content| <= n ==> r == content
  {
    if |content| <= n then content else content[..n]
  }

  /** What `get_file_content` returns; `fault` is an OS failure in opening or
      reading the file (permission denied, undecodable bytes). */
  function FileContent(t: Tree, cwd: Cwd, wd: string, filePath: string,
                       maxChars: Cap, fault: Option<string>): string
  {
    var key := AbsKey(cwd, Join(wd, filePath));
    if !Confined(cwd, wd, filePath) then OutsideError(filePath)
    else if !IsFile(t, key) then NotFileError(filePath)
    else if fault.Some? then "Error: " + fault.value
    else
      var content := ReadAtMost(Translated(t[key].content), maxChars + 1);
      if |content| > maxChars then content[..maxChars] + TruncationMarker(filePath, maxChars)
      else content
  }

  /** Outside the working directory nothing is read: the result is the read
      error whatever the filesystem holds. */
  lemma OutsideNeedsNoAccess(t1: Tree, t2: Tree, cwd: Cwd, wd: string, filePath: string,
                             maxChars: Cap, f1: Option<string>, f2: Option<string>)
    requires !Confined(cwd, wd, filePath)
    ensures FileContent(t1, cwd, wd, filePath, maxChars, f1) == OutsideError(filePath)
    ensures FileContent(t1, cwd, wd, filePath, maxChars, f1) == FileContent(t2, cwd, wd, filePath, maxChars, f2)
  {
  }

  /** A missing path or a directory inside the root gets the not-found error. */
  lemma NotRegularFileReported(t: Tree, cwd: Cwd, wd: string, filePath: string,
                               maxChars: Cap, fault: Option<string>)
    requires Confined(cwd, wd, filePath)
    requires !IsFile(t, AbsKey(cwd, Join(wd, filePath)))
    ensures FileContent(t, cwd, wd, filePath, maxChars, fault) == NotFileError(filePath)
  {
  }

  /** Only the first MAX_CHARS + 1 characters of the translated text are
      read: files that agree on them give the same result. */
  lemma ReadsAtMostCapPlusOne(t1: Tree, t2: Tree, cwd: Cwd, wd: string, filePath: string,
                              maxChars: Cap)
    requires var key := AbsKey(cwd, Join(wd, filePath));
      IsFile(t1, key) && IsFile(t2, key)
      && ReadAtMost(Translated(t1[key].content), maxChars + 1)
         == ReadAtMost(Translated(t2[key].content), maxChars + 1)
    ensures FileContent(t1, cwd, wd, filePath, maxChars, None) == FileContent(t2, cwd, wd, filePath, maxChars, None)
  {
  }

  /** A file whose text is at most MAX_CHARS characters is returned whole,
      with its line endings translated; without carriage returns, exactly. */
  lemma ShortFileExact(t: Tree, cwd: Cwd, wd: string, filePath: string, maxChars: Cap)
    requires Confined(cwd, wd, filePath)
    requires IsFile(t, AbsKey(cwd, Join(wd, filePath)))
    requires |Translated(t[AbsKey(cwd, Join(wd, filePath))].content)| <= maxChars
    ensures var c := t[AbsKey(cwd, Join(wd, filePath))].content;
      FileContent(t, cwd, wd, filePath, maxChars, None) == Translated(c)
    ensures var c := t[AbsKey(cwd, Join(wd, filePath))].content;
      '\r' !in c ==> FileContent(t, cwd, wd, filePath, maxChars, None) == c
  {
    var c := t[AbsKey(cwd, Join(wd, filePath))].content;
    if '\r' !in c {
      TranslatedWithoutCR(c);
    }
  }

  /** A longer text gives its first MAX_CHARS characters and the marker. */
  lemma LongFileTruncated(t: Tree, cwd: Cwd, wd: string, filePath: string, maxChars: Cap)
    requires Confined(cwd, wd, filePath)
    requires IsFile(t, AbsKey(cwd, Join(wd, filePath)))
    requires |Translated(t[AbsKey(cwd, Join(wd, filePath))].content)| > maxChars
    ensures FileContent(t, cwd, wd, filePath, maxChars, None)
         == Translated(t[AbsKey(cwd, Join(wd, filePath))].content)[..maxChars]
            + TruncationMarker(filePath, maxChars)
  {
    var c := Translated(t[AbsKey(cwd, Join(wd, filePath))].content);
    assert ReadAtMost(c, maxChars + 1)[..maxChars] == c[..maxChars];
  }

  /** Whenever the file is read, the result begins with the first
      min(length, MAX_CHARS) characters of its translated text. */
  lemma ResultKeepsPrefix(t: Tree, cwd: Cwd, wd: string, filePath: string, maxChars: Cap)
    requires Confined(cwd, wd, filePath)
    requires IsFile(t, AbsKey(cwd, Join(wd, filePath)))
    ensures var c := Translated(t[AbsKey(cwd, Join(wd, filePath))].content);
      var n := if |c| <= maxChars then |c| else maxChars;
      StartsWith(FileContent(t, cwd, wd, filePath, maxChars, None), c[..n])
  {
    var c := Translated(t[AbsKey(cwd, Join(wd, filePath))].content);
    if |c| > maxChars {
      LongFileTruncated(t, cwd, wd, filePath, maxChars);
      var r := FileContent(t, cwd, wd, filePath, maxChars, None);
      assert r[..maxChars] == c[..maxChars];
    }
  }

  /** A "\r\n" ending counts as one character: "ab\r\n" fits a cap of 3. */
  lemma CrLfCountsOnce(t: Tree, cwd: Cwd, wd: string, filePath: string)
    requires Confined(cwd, wd, filePath)
    requires IsFile(t, AbsKey(cwd, Join(wd, filePath)))
    requires t[AbsKey(cwd, Join(wd, filePath))].content == "ab\r\n"
    ensures FileContent(t, cwd, wd, filePath, 3, None) == "ab\n"
  {
    assert Translated("ab\r\n") == "ab\n" by {
      assert "ab\r\n"[1..] == "b\r\n";
      assert "b\r\n"[1..] == "\r\n";
      assert "\r\n"[2..] == "";
    }
  }
}
