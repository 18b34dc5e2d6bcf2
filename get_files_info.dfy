/** `get_files_info(working_directory, directory=".")`: list the entries of
    a directory inside the working directory, one line per entry. */
module GetFilesInfo {
  import opened Text
  import opened Paths
  import opened FileTree

  function OutsideError(directory: string): string {
    "Error: Cannot list \"" + directory + "\" as it is outside the permitted working directory"
  }

  function NotDirectoryError(directory: string): string {
    "Error: \"" + directory + "\" is not a directory"
  }

  /** `os.path.getsize`: the length of a file (one byte per character), the
      filesystem's own figure `dirSize` for a directory. */
  function Size(n: Node, dirSize: nat): nat {
    match n
    case File(c) => |c|
    case Dir => dirSize
  }

  /** The line printed for one entry. */
  function EntryLine(name: string, n: Node, dirSize: nat): string {
    "- " + name + ": file_size=" + IntToString(Size(n, dirSize)) + ", is_dir=" + BoolToString(n.Dir?)
  }

  predicate Present(t: Tree, dir: Segments, name: string) {
    dir + [name] in t
  }

  /** Index of the first listed name that no longer exists (|names| if none). */
  function FirstMissing(t: Tree, dir: Segments, names: seq<string>): (k: nat)
    ensures k <= |names|
    ensures forall j :: 0 <= j < k ==> Present(t, dir, names[j])
    ensures k < |names| ==> !Present(t, dir, names[k])
    decreases |names|
  {
    if names == [] || !Present(t, dir, names[0]) then 0
    else
      var k := 1 + FirstMissing(t, dir, names[1..]);
      assert forall j :: 1 <= j < k ==> names[j] == names[1..][j - 1];
      k
  }

  /** The entry lines for `names`, in order; `dirSize` gives each
      directory's own size. */
  function Lines(t: Tree, dir: Segments, names: seq<string>, dirSize: Segments -> nat): seq<string>
    requires forall j :: 0 <= j < |names| ==> Present(t, dir, names[j])
    decreases |names|
  {
    if names == [] then []
    else
      var last := names[|names| - 1];
      assert Present(t, dir, names[|names| - 1]);
      Lines(t, dir, names[..|names| - 1], dirSize) + [EntryLine(last, t[dir + [last]], dirSize(dir + [last]))]
  }

  /** What `get_files_info` returns. `listing` is the order in which
      `os.listdir` reports the entries; `fault` an OS failure raised while
      listing (permission denied, say). */
  function FilesInfo(t: Tree, cwd: Cwd, wd: string, directory: string,
                     listing: seq<string>, dirSize: Segments -> nat, fault: Option<string>): string
  {
    var joined := Join(wd, directory);
    var dir := AbsKey(cwd, joined);
    if !Confined(cwd, wd, directory) then OutsideError(directory)
    else if !IsDir(t, dir) then NotDirectoryError(directory)
    else if fault.Some? then "Error: " + fault.value
    else
      var k := FirstMissing(t, dir, listing);
      if k < |listing| then "Error: " + Describe(NoSuchFile(Join(joined, listing[k])))
      else JoinWith("\n", Lines(t, dir, listing, dirSize))
  }

  /** The tool itself: the checks, then a loop that appends one line per
      listed entry and joins them with newlines. */
  method ListFiles(t: Tree, cwd: Cwd, wd: string, directory: string,
                   listing: seq<string>, dirSize: Segments -> nat, fault: Option<string>)
    returns (r: string)
    ensures r == FilesInfo(t, cwd, wd, directory, listing, dirSize, fault)
  {
    var joined := Join(wd, directory);
    if !StartsWith(AbsPath(cwd, joined), AbsPath(cwd, wd)) {
      return OutsideError(directory);
    }
    var dir := AbsKey(cwd, joined);
    if !(dir in t && t[dir].Dir?) {
      return NotDirectoryError(directory);
    }
    if fault.Some? {
      return "Error: " + fault.value;
    }
    var contents: seq<string> := [];
    var i := 0;
    while i < |listing|
      invariant 0 <= i <= |listing|
      invariant forall j :: 0 <= j < i ==> Present(t, dir, listing[j])
      invariant contents == Lines(t, dir, listing[..i], dirSize)
    {
      var name := listing[i];
      var item := dir + [name];
      if item !in t {
        assert FirstMissing(t, dir, listing) == i;
        return "Error: " + Describe(NoSuchFile(Join(joined, name)));
      }
      PresentSoFar(t, dir, listing, i);
      assert listing[..i + 1][..i] == listing[..i];
      contents := contents + [EntryLine(name, t[item], dirSize(item))];
      i := i + 1;
    }
    assert listing[..i] == listing;
    r := JoinWith("\n", contents);
  }

  /** The loop passes one more entry that exists. */
  lemma PresentSoFar(t: Tree, dir: Segments, names: seq<string>, i: nat)
    requires i < |names|
    requires forall j :: 0 <= j < i ==> Present(t, dir, names[j])
    requires Present(t, dir, names[i])
    ensures forall j :: 0 <= j < i + 1 ==> Present(t, dir, names[j])
  {
  }

  lemma {:induction false} LinesAt(t: Tree, dir: Segments, names: seq<string>, dirSize: Segments -> nat, i: nat)
    requires forall j :: 0 <= j < |names| ==> Present(t, dir, names[j])
    requires i < |names|
    ensures |Lines(t, dir, names, dirSize)| == |names|
    ensures Lines(t, dir, names, dirSize)[i] == EntryLine(names[i], t[dir + [names[i]]], dirSize(dir + [names[i]]))
    decreases |names|
  {
    var init := names[..|names| - 1];
    if i < |init| {
      LinesAt(t, dir, init, dirSize, i);
    } else if |init| > 0 {
      LinesAt(t, dir, init, dirSize, 0);
    }
  }

  lemma EntryLineOneLine(name: string, n: Node, dirSize: nat)
    requires '\n' !in name
    ensures '\n' !in EntryLine(name, n, dirSize)
  {
    var digits := IntToString(Size(n, dirSize));
    assert '\n' !in digits;
  }

  /** Outside the working directory the result is the listing error whatever
      the filesystem holds: nothing is looked at. */
  lemma OutsideNeedsNoAccess(t1: Tree, t2: Tree, cwd: Cwd, wd: string, directory: string,
                             l1: seq<string>, l2: seq<string>, s1: Segments -> nat, s2: Segments -> nat,
                             f1: Option<string>, f2: Option<string>)
    requires !Confined(cwd, wd, directory)
    ensures FilesInfo(t1, cwd, wd, directory, l1, s1, f1) == OutsideError(directory)
    ensures FilesInfo(t1, cwd, wd, directory, l1, s1, f1) == FilesInfo(t2, cwd, wd, directory, l2, s2, f2)
  {
  }

  /** The default "." lists the working directory itself. */
  lemma DefaultListsRoot(t: Tree, cwd: Cwd, wd: string, listing: seq<string>, dirSize: Segments -> nat)
    requires IsDir(t, AbsKey(cwd, wd))
    requires forall j :: 0 <= j < |listing| ==> Present(t, AbsKey(cwd, wd), listing[j])
    ensures FilesInfo(t, cwd, wd, ".", listing, dirSize, None)
         == JoinWith("\n", Lines(t, AbsKey(cwd, wd), listing, dirSize))
  {
    DotIsRoot(cwd, wd);
  }

  /** A path inside the root that is not a directory gets the
      not-a-directory error. */
  lemma NotADirectoryReported(t: Tree, cwd: Cwd, wd: string, directory: string,
                              listing: seq<string>, dirSize: Segments -> nat, fault: Option<string>)
    requires Confined(cwd, wd, directory)
    requires !IsDir(t, AbsKey(cwd, Join(wd, directory)))
    ensures FilesInfo(t, cwd, wd, directory, listing, dirSize, fault) == NotDirectoryError(directory)
  {
  }

  /** A successful listing has exactly one line per entry, in listing order,
      each naming the entry, its size and whether it is a directory. */
  lemma OneLinePerEntry(t: Tree, cwd: Cwd, wd: string, directory: string,
                        listing: seq<string>, dirSize: Segments -> nat)
    requires Confined(cwd, wd, directory)
    requires IsDir(t, AbsKey(cwd, Join(wd, directory)))
    requires |listing| > 0
    requires forall j :: 0 <= j < |listing| ==> Present(t, AbsKey(cwd, Join(wd, directory)), listing[j])
    requires forall j :: 0 <= j < |listing| ==> '\n' !in listing[j]
    ensures var lines := SplitOn(FilesInfo(t, cwd, wd, directory, listing, dirSize, None), '\n');
      && |lines| == |listing|
      && forall j :: 0 <= j < |listing| ==>
           lines[j] == EntryLine(listing[j], t[AbsKey(cwd, Join(wd, directory)) + [listing[j]]],
                            dirSize(AbsKey(cwd, Join(wd, directory)) + [listing[j]]))
  {
    var dir := AbsKey(cwd, Join(wd, directory));
    var lines := Lines(t, dir, listing, dirSize);
    LinesAt(t, dir, listing, dirSize, 0);
    CompleteListingJoins(t, cwd, wd, directory, listing, dirSize);
    LinesSplitBack(t, dir, listing, dirSize);
    assert SplitOn(FilesInfo(t, cwd, wd, directory, listing, dirSize, None), '\n') == lines;
    forall j | 0 <= j < |listing|
      ensures lines[j] == EntryLine(listing[j], t[dir + [listing[j]]], dirSize(dir + [listing[j]]))
    {
      LinesAt(t, dir, listing, dirSize, j);
    }
  }

  /** A listing whose names all exist is the joined entry lines. */
  lemma CompleteListingJoins(t: Tree, cwd: Cwd, wd: string, directory: string,
                             listing: seq<string>, dirSize: Segments -> nat)
    requires Confined(cwd, wd, directory)
    requires IsDir(t, AbsKey(cwd, Join(wd, directory)))
    requires forall j :: 0 <= j < |listing| ==> Present(t, AbsKey(cwd, Join(wd, directory)), listing[j])
    ensures FilesInfo(t, cwd, wd, directory, listing, dirSize, None)
         == JoinWith("\n", Lines(t, AbsKey(cwd, Join(wd, directory)), listing, dirSize))
  {
  }

  /** Entry lines of newline-free names split back into themselves. */
  lemma LinesSplitBack(t: Tree, dir: Segments, names: seq<string>, dirSize: Segments -> nat)
    requires |names| > 0
    requires forall j :: 0 <= j < |names| ==> Present(t, dir, names[j])
    requires forall j :: 0 <= j < |names| ==> '\n' !in names[j]
    ensures SplitOn(JoinWith("\n", Lines(t, dir, names, dirSize)), '\n') == Lines(t, dir, names, dirSize)
  {
    var lines := Lines(t, dir, names, dirSize);
    LinesAt(t, dir, names, dirSize, 0);
    forall j | 0 <= j < |lines| ensures '\n' !in lines[j] {
      LinesAt(t, dir, names, dirSize, j);
      EntryLineOneLine(names[j], t[dir + [names[j]]], dirSize(dir + [names[j]]));
    }
    SplitJoinRoundTrip(lines, '\n');
  }

  /** The names of the entries directly inside `dir`. */
  function Children(t: Tree, dir: Segments): (names: set<string>)
    ensures forall name :: name in names <==> dir + [name] in t
  {
    var names := set k | k in t && |k| == |dir| + 1 && k[..|dir|] == dir :: k[|dir|];
    assert forall name :: dir + [name] in t ==> name in names by {
      forall name | dir + [name] in t ensures name in names {
        var k := dir + [name];
        assert k[..|dir|] == dir && k[|dir|] == name;
      }
    }
    assert forall k :: k in t && |k| == |dir| + 1 && k[..|dir|] == dir ==> k == dir + [k[|dir|]] by {
      forall k | k in t && |k| == |dir| + 1 && k[..|dir|] == dir ensures k == dir + [k[|dir|]] {
        assert k == k[..|dir|] + [k[|dir|]];
      }
    }
    names
  }

  predicate Distinct(names: seq<string>) {
    forall i, j :: 0 <= i < j < |names| ==> names[i] != names[j]
  }

  /** What `os.listdir` reports: each entry of the directory once. */
  predicate ListsChildren(t: Tree, dir: Segments, listing: seq<string>) {
    Distinct(listing) && (set name | name in listing) == Children(t, dir)
  }

  lemma {:induction false} DistinctCard(names: seq<string>)
    requires Distinct(names)
    ensures |set name | name in names| == |names|
    decreases |names|
  {
    if names != [] {
      var init := names[..|names| - 1];
      var last := names[|names| - 1];
      assert Distinct(init);
      DistinctCard(init);
      assert last !in init;
      assert names == init + [last];
      assert (set name | name in names) == (set name | name in init) + {last};
    }
  }

  /** When the listing is the directory's entries, every listed name still
      exists: the loop meets no vanished entry. */
  lemma ListedChildrenPresent(t: Tree, dir: Segments, listing: seq<string>)
    requires ListsChildren(t, dir, listing)
    ensures forall j :: 0 <= j < |listing| ==> Present(t, dir, listing[j])
    ensures |listing| == |Children(t, dir)|
  {
    forall j | 0 <= j < |listing| ensures Present(t, dir, listing[j]) {
      assert listing[j] in (set name | name in listing);
    }
    DistinctCard(listing);
  }

  /** A successful listing of a non-empty directory has one line per entry
      of the directory: as many lines as entries, each line for an entry,
      and a line for each entry. */
  lemma OneLinePerChild(t: Tree, cwd: Cwd, wd: string, directory: string,
                        listing: seq<string>, dirSize: Segments -> nat)
    requires Confined(cwd, wd, directory)
    requires IsDir(t, AbsKey(cwd, Join(wd, directory)))
    requires ListsChildren(t, AbsKey(cwd, Join(wd, directory)), listing)
    requires Children(t, AbsKey(cwd, Join(wd, directory))) != {}
    requires forall j :: 0 <= j < |listing| ==> '\n' !in listing[j]
    ensures |SplitOn(FilesInfo(t, cwd, wd, directory, listing, dirSize, None), '\n')| == |listing|
    ensures |listing| == |Children(t, AbsKey(cwd, Join(wd, directory)))|
    ensures var dir := AbsKey(cwd, Join(wd, directory));
      var lines := SplitOn(FilesInfo(t, cwd, wd, directory, listing, dirSize, None), '\n');
      forall j :: 0 <= j < |listing| ==>
        listing[j] in Children(t, dir) && lines[j] == EntryLine(listing[j], t[dir + [listing[j]]], dirSize(dir + [listing[j]]))
    ensures forall name :: name in Children(t, AbsKey(cwd, Join(wd, directory))) ==>
      exists j :: 0 <= j < |listing| && listing[j] == name
  {
    var dir := AbsKey(cwd, Join(wd, directory));
    ListedChildrenPresent(t, dir, listing);
    OneLinePerEntry(t, cwd, wd, directory, listing, dirSize);
    forall j | 0 <= j < |listing| ensures listing[j] in Children(t, dir) {
      assert listing[j] in (set name | name in listing);
    }
    forall name | name in Children(t, dir)
      ensures exists j :: 0 <= j < |listing| && listing[j] == name
    {
      assert name in (set name | name in listing);
    }
  }

  /** A directory with no entries lists as the empty string, not as an
      error. */
  lemma EmptyDirectoryIsEmptyString(t: Tree, cwd: Cwd, wd: string, directory: string,
                                    listing: seq<string>, dirSize: Segments -> nat)
    requires Confined(cwd, wd, directory)
    requires IsDir(t, AbsKey(cwd, Join(wd, directory)))
    requires ListsChildren(t, AbsKey(cwd, Join(wd, directory)), listing)
    requires Children(t, AbsKey(cwd, Join(wd, directory))) == {}
    ensures FilesInfo(t, cwd, wd, directory, listing, dirSize, None) == ""
  {
    ListedChildrenPresent(t, AbsKey(cwd, Join(wd, directory)), listing);
  }

  /** Every outcome other than a complete listing is an `Error:` string. */
  lemma FailuresAreErrorStrings(t: Tree, cwd: Cwd, wd: string, directory: string,
                                listing: seq<string>, dirSize: Segments -> nat, fault: Option<string>)
    requires !(Confined(cwd, wd, directory) && IsDir(t, AbsKey(cwd, Join(wd, directory)))
               && fault.None?
               && forall j :: 0 <= j < |listing| ==> Present(t, AbsKey(cwd, Join(wd, directory)), listing[j]))
    ensures StartsWith(FilesInfo(t, cwd, wd, directory, listing, dirSize, fault), "Error: ")
  {
    var joined := Join(wd, directory);
    var dir := AbsKey(cwd, joined);
    if !Confined(cwd, wd, directory) {
      assert OutsideError(directory)[..7] == "Error: ";
    } else if !IsDir(t, dir) {
      assert NotDirectoryError(directory)[..7] == "Error: ";
    } else if fault.Some? {
      assert ("Error: " + fault.value)[..7] == "Error: ";
    } else {
      var k := FirstMissing(t, dir, listing);
      assert k < |listing|;
      var e := Describe(NoSuchFile(Join(joined, listing[k])));
      assert ("Error: " + e)[..7] == "Error: ";
    }
  }
}
